/** The reachability passes of the portal language audit: the forward and reverse
    worklists over component edges (buildOutputComponentGraph) and the search for
    required declarations that mocks can cut (runtimeTestAttestationErrors). */
module Reachability {

  import opened Optional

  /** Owner and declaration keys are assembled around a separator, so none is empty
      and the audit's truth tests on them only look for missing ones. */
  type Key = key: string | key != "" witness "key"

  /** A component used inside an owner; the component's own owner may be unresolved. */
  datatype Edge = Edge(from: Key, to: Option<Key>, carriesOutputLanguage: bool, node: nat)

  type Links = set<(Key, Key)>

  function Resolved(edges: seq<Edge>): Links {
    set e | e in edges && e.to.Some? :: (e.from, e.to.value)
  }

  function Reversed(links: Links): Links {
    set link | link in links :: (link.1, link.0)
  }

  // ---- Walks ------------------------------------------------------------------

  ghost predicate Walk(links: Links, path: seq<Key>) {
    path != [] && forall i :: 0 <= i < |path| - 1 ==> (path[i], path[i + 1]) in links
  }

  ghost predicate WalkBetween(links: Links, path: seq<Key>, from: Key, to: Key) {
    Walk(links, path) && path[0] == from && path[|path| - 1] == to
  }

  ghost predicate Reaches(links: Links, from: Key, to: Key) {
    exists path :: WalkBetween(links, path, from, to)
  }

  /** Some walk from one of the roots ends at the key. */
  ghost predicate ReachedFrom(links: Links, roots: set<Key>, key: Key) {
    exists root :: root in roots && Reaches(links, root, key)
  }

  ghost predicate Closed(links: Links, keys: set<Key>) {
    forall link :: link in links && link.0 in keys ==> link.1 in keys
  }

  lemma RootIsReached(links: Links, roots: set<Key>, root: Key)
    requires root in roots
    ensures ReachedFrom(links, roots, root)
  {
    assert WalkBetween(links, [root], root, root);
  }

  lemma NextIsReached(links: Links, roots: set<Key>, key: Key, next: Key)
    requires ReachedFrom(links, roots, key) && (key, next) in links
    ensures ReachedFrom(links, roots, next)
  {
    var root :| root in roots && Reaches(links, root, key);
    var path :| WalkBetween(links, path, root, key);
    assert WalkBetween(links, path + [next], root, next);
  }

  lemma {:induction false} ClosedHoldsWalks(links: Links, keys: set<Key>, path: seq<Key>)
    requires Closed(links, keys) && Walk(links, path) && path[0] in keys
    ensures path[|path| - 1] in keys
    decreases |path|
  {
    if |path| > 1 {
      assert (path[0], path[1]) in links;
      ClosedHoldsWalks(links, keys, path[1..]);
    }
  }

  lemma ClosedHoldsReached(links: Links, roots: set<Key>, keys: set<Key>, key: Key)
    requires Closed(links, keys) && roots <= keys && ReachedFrom(links, roots, key)
    ensures key in keys
  {
    var root :| root in roots && Reaches(links, root, key);
    var path :| WalkBetween(links, path, root, key);
    ClosedHoldsWalks(links, keys, path);
  }

  lemma ReversedWalk(links: Links, path: seq<Key>, from: Key, to: Key)
    requires WalkBetween(Reversed(links), path, from, to)
    ensures Reaches(links, to, from)
  {
    var back := seq(|path|, i requires 0 <= i < |path| => path[|path| - 1 - i]);
    forall i | 0 <= i < |back| - 1 ensures (back[i], back[i + 1]) in links {
      assert (path[|path| - 2 - i], path[|path| - 2 - i + 1]) in Reversed(links);
    }
    assert WalkBetween(links, back, to, from);
  }

  lemma ReverseReaches(links: Links, from: Key, to: Key)
    ensures Reaches(Reversed(links), from, to) <==> Reaches(links, to, from)
  {
    if Reaches(Reversed(links), from, to) {
      var path :| WalkBetween(Reversed(links), path, from, to);
      ReversedWalk(links, path, from, to);
    }
    if Reaches(links, to, from) {
      assert Reversed(Reversed(links)) == links by {
        forall link | link in links ensures link in Reversed(Reversed(links)) {
          assert (link.1, link.0) in Reversed(links);
        }
      }
      var path :| WalkBetween(links, path, to, from);
      ReversedWalk(Reversed(links), path, to, from);
    }
  }

  lemma {:induction false} SubsetIsNoLarger(small: set<Key>, large: set<Key>)
    requires small <= large
    ensures |small| <= |large|
    decreases small
  {
    if small != {} {
      var key :| key in small;
      SubsetIsNoLarger(small - {key}, large - {key});
    }
  }

  // ---- The worklists --------------------------------------------------------------

  function At(lists: map<Key, seq<Option<Key>>>, key: Key): seq<Option<Key>> {
    if key in lists then lists[key] else []
  }

  /** The adjacency lists hold the links, at either end. */
  ghost predicate Adjacency(lists: map<Key, seq<Option<Key>>>, links: Links) {
    forall from, to :: (from, to) in links <==> Some(to) in At(lists, from)
  }

  ghost function Elements(keys: seq<Key>): set<Key> {
    set key | key in keys
  }

  /** What a worklist keeps: the queue lists each visited key once, everything
      visited is reached from the roots, and what stands before `index` has been
      followed. */
  ghost predicate Searching(links: Links, roots: set<Key>, visited: set<Key>, queue: seq<Key>, index: nat) {
    && index <= |queue|
    && roots <= visited && visited == Elements(queue) && |visited| == |queue|
    && visited <= roots + Targets(links)
    && (forall key :: key in visited ==> ReachedFrom(links, roots, key))
    && (forall link :: link in links && link.0 in queue[..index] ==> link.1 in visited)
  }

  ghost function Targets(links: Links): set<Key> {
    set link | link in links :: link.1
  }

  lemma Found(links: Links, roots: set<Key>, visited: set<Key>, queue: seq<Key>, index: nat, at: nat, key: Key)
    requires Searching(links, roots, visited, queue, index)
    requires at < |queue| && (queue[at], key) in links && key !in visited
    ensures Searching(links, roots, visited + {key}, queue + [key], index)
  {
    hide Reaches;
    assert queue[at] in visited;
    NextIsReached(links, roots, queue[at], key);
    assert (queue + [key])[..index] == queue[..index];
    assert (queue[at], key).1 in Targets(links);
  }

  lemma Followed(links: Links, roots: set<Key>, visited: set<Key>, queue: seq<Key>, index: nat)
    requires Searching(links, roots, visited, queue, index) && index < |queue|
    requires forall link :: link in links && link.0 == queue[index] ==> link.1 in visited
    ensures Searching(links, roots, visited, queue, index + 1)
  {
    hide ReachedFrom;
    assert queue[..index + 1] == queue[..index] + [queue[index]];
  }

  lemma Started(links: Links, roots: seq<Key>)
    requires |Elements(roots)| == |roots|
    ensures Searching(links, Elements(roots), Elements(roots), roots, 0)
  {
    forall key | key in roots ensures ReachedFrom(links, Elements(roots), key) {
      RootIsReached(links, Elements(roots), key);
    }
  }

  /** When the queue has been followed to its end, the visited keys are the reached ones. */
  lemma Exhausted(links: Links, roots: set<Key>, visited: set<Key>, queue: seq<Key>)
    requires Searching(links, roots, visited, queue, |queue|)
    ensures forall key :: key in visited <==> ReachedFrom(links, roots, key)
  {
    assert queue[..|queue|] == queue;
    forall key | ReachedFrom(links, roots, key) ensures key in visited {
      ClosedHoldsReached(links, roots, visited, key);
    }
  }

  lemma QueueIsBounded(links: Links, roots: set<Key>, visited: set<Key>, queue: seq<Key>, index: nat)
    requires Searching(links, roots, visited, queue, index)
    ensures |queue| <= |roots + Targets(links)|
  {
    SubsetIsNoLarger(visited, roots + Targets(links));
  }

  /** One worklist: exactly the keys that the roots reach. The roots are the members
      of a set, in the order it lists them. */
  method Worklist(ghost links: Links, roots: seq<Key>, lists: map<Key, seq<Option<Key>>>)
    returns (visited: set<Key>)
    requires |Elements(roots)| == |roots| && Adjacency(lists, links)
    ensures forall key :: key in visited <==> ReachedFrom(links, Elements(roots), key)
  {
    hide Searching, ReachedFrom;
    visited := set key | key in roots;
    var queue := roots;
    var index := 0;
    ghost var start := Elements(roots);
    Started(links, roots);
    while index < |queue|
      invariant Searching(links, start, visited, queue, index) && index <= |queue|
      decreases |start + Targets(links)| - index
    {
      QueueIsBounded(links, start, visited, queue, index);
      var owner := queue[index];
      var next := At(lists, owner);
      var i := 0;
      while i < |next|
        invariant 0 <= i <= |next| && index < |queue| && queue[index] == owner
        invariant Searching(links, start, visited, queue, index)
        invariant forall k :: 0 <= k < i && next[k].Some? ==> next[k].value in visited
      {
        if next[i].Some? && next[i].value !in visited {
          assert Some(next[i].value) in next;
          Found(links, start, visited, queue, index, index, next[i].value);
          visited := visited + {next[i].value};
          queue := queue + [next[i].value];
        }
        i := i + 1;
      }
      forall link | link in links && link.0 == owner ensures link.1 in visited {
        assert (owner, link.1) in links;
        assert Some(link.1) in next;
      }
      Followed(links, start, visited, queue, index);
      index := index + 1;
    }
    Exhausted(links, start, visited, queue);
  }

  // ---- The component graph -----------------------------------------------------------

  /** The edge is a step of some walk from a semantic owner to a semantic owner. */
  ghost predicate OnSemanticWalk(links: Links, semantic: set<Key>, from: Key, to: Key) {
    exists path, i :: StepOfWalk(links, semantic, path, i, from, to)
  }

  ghost predicate StepOfWalk(links: Links, semantic: set<Key>, path: seq<Key>, i: nat, from: Key, to: Key) {
    && Walk(links, path) && path[0] in semantic && path[|path| - 1] in semantic
    && i + 1 < |path| && path[i] == from && path[i + 1] == to
  }

  /** Reachable on one side and able to reach on the other is the same as lying on
      one walk. */
  lemma BothSidesMakeAWalk(links: Links, semantic: set<Key>, from: Key, to: Key)
    requires (from, to) in links
    ensures OnSemanticWalk(links, semantic, from, to) <==>
            ReachedFrom(links, semantic, from) && ReachedFrom(Reversed(links), semantic, to)
  {
    if ReachedFrom(links, semantic, from) && ReachedFrom(Reversed(links), semantic, to) {
      var source :| source in semantic && Reaches(links, source, from);
      var target :| target in semantic && Reaches(Reversed(links), target, to);
      ReverseReaches(links, target, to);
      var before :| WalkBetween(links, before, source, from);
      var after :| WalkBetween(links, after, to, target);
      assert StepOfWalk(links, semantic, before + after, |before| - 1, from, to);
    }
    if OnSemanticWalk(links, semantic, from, to) {
      var path, i :| StepOfWalk(links, semantic, path, i, from, to);
      assert WalkBetween(links, path[..i + 1], path[0], from);
      assert WalkBetween(links, path[i + 1..], to, path[|path| - 1]);
      ReverseReaches(links, path[|path| - 1], to);
    }
  }

  /** An edge belongs to the output surface. */
  ghost predicate Selected(edges: seq<Edge>, semantic: set<Key>, required: set<Key>, edge: Edge) {
    || edge.carriesOutputLanguage
    || (edge.to.Some? && edge.to.value in required)
    || (edge.to.Some? && OnSemanticWalk(Resolved(edges), semantic, edge.from, edge.to.value))
    || (edge.to.None? && edge.from in semantic)
  }

  function Ends(edge: Edge): set<Key> {
    {edge.from} + if edge.to.Some? then {edge.to.value} else {}
  }

  /** Where the edges that leave an owner lead, in their order. */
  function Outgoing(edges: seq<Edge>, owner: Key): seq<Option<Key>> {
    if edges == [] then []
    else
      var last := edges[|edges| - 1];
      Outgoing(edges[..|edges| - 1], owner) + if last.from == owner then [last.to] else []
  }

  /** Where the edges that lead to an owner come from, in their order. */
  function Incoming(edges: seq<Edge>, owner: Key): seq<Option<Key>> {
    if edges == [] then []
    else
      var last := edges[|edges| - 1];
      Incoming(edges[..|edges| - 1], owner) + if last.to == Some(owner) then [Some(last.from)] else []
  }

  lemma {:induction false} ListsHoldLinks(edges: seq<Edge>, from: Key, to: Key)
    ensures Some(to) in Outgoing(edges, from) <==> (from, to) in Resolved(edges)
    ensures Some(from) in Incoming(edges, to) <==> (to, from) in Reversed(Resolved(edges))
  {
    assert (to, from) in Reversed(Resolved(edges)) <==> (from, to) in Resolved(edges);
    if edges != [] {
      var front, last := edges[..|edges| - 1], edges[|edges| - 1];
      ListsHoldLinks(front, from, to);
      assert (to, from) in Reversed(Resolved(front)) <==> (from, to) in Resolved(front);
      assert edges == front + [last];
      assert (from, to) in Resolved(edges) <==>
             (from, to) in Resolved(front) || (last.from == from && last.to == Some(to));
    }
  }

  lemma OneMoreEdge(edges: seq<Edge>, i: nat, owner: Key)
    requires i < |edges|
    ensures Outgoing(edges[..i + 1], owner) ==
            Outgoing(edges[..i], owner) + if edges[i].from == owner then [edges[i].to] else []
    ensures Incoming(edges[..i + 1], owner) ==
            Incoming(edges[..i], owner) + if edges[i].to == Some(owner) then [Some(edges[i].from)] else []
  {
    assert edges[..i + 1][..i] == edges[..i];
  }

  /** The lists with one more entry under a key. */
  function Listed(lists: map<Key, seq<Option<Key>>>, key: Key, entry: Option<Key>): (more: map<Key, seq<Option<Key>>>)
    ensures forall other :: At(more, other) == At(lists, other) + if other == key then [entry] else []
  {
    lists[key := At(lists, key) + [entry]]
  }

  ghost predicate Indexed(
    outgoing: map<Key, seq<Option<Key>>>, incoming: map<Key, seq<Option<Key>>>, edges: seq<Edge>)
  {
    forall owner :: At(outgoing, owner) == Outgoing(edges, owner) && At(incoming, owner) == Incoming(edges, owner)
  }

  lemma IndexedOneMore(
    outgoing: map<Key, seq<Option<Key>>>, incoming: map<Key, seq<Option<Key>>>, edges: seq<Edge>, i: nat)
    requires i < |edges| && Indexed(outgoing, incoming, edges[..i])
    ensures Indexed(
              Listed(outgoing, edges[i].from, edges[i].to),
              if edges[i].to.Some? then Listed(incoming, edges[i].to.value, Some(edges[i].from)) else incoming,
              edges[..i + 1])
  {
    hide Outgoing, Incoming, Listed, At;
    forall owner
      ensures Outgoing(edges[..i + 1], owner) ==
              Outgoing(edges[..i], owner) + if edges[i].from == owner then [edges[i].to] else []
      ensures Incoming(edges[..i + 1], owner) ==
              Incoming(edges[..i], owner) + if edges[i].to == Some(owner) then [Some(edges[i].from)] else []
    {
      OneMoreEdge(edges, i, owner);
    }
  }

  /** Edges by the owner they leave and by the owner they lead to. */
  method IndexEdges(edges: seq<Edge>)
    returns (outgoing: map<Key, seq<Option<Key>>>, incoming: map<Key, seq<Option<Key>>>)
    ensures forall owner :: At(outgoing, owner) == Outgoing(edges, owner)
    ensures forall owner :: At(incoming, owner) == Incoming(edges, owner)
  {
    outgoing, incoming := map[], map[];
    assert edges[..0] == [] && edges[..|edges|] == edges;
    assert Indexed(outgoing, incoming, edges[..0]);
    {
      hide Indexed, Outgoing, Incoming, Listed;
      for i := 0 to |edges|
        invariant Indexed(outgoing, incoming, edges[..i])
      {
        var edge := edges[i];
        IndexedOneMore(outgoing, incoming, edges, i);
        outgoing := Listed(outgoing, edge.from, edge.to);
        if edge.to.Some? {
          incoming := Listed(incoming, edge.to.value, Some(edge.from));
        }
      }
    }
    assert Indexed(outgoing, incoming, edges);
  }

  lemma SelectedBySearch(
    edges: seq<Edge>, semantic: set<Key>, required: set<Key>, reachable: set<Key>, canReach: set<Key>, edge: Edge)
    requires edge in edges
    requires forall key :: key in reachable <==> ReachedFrom(Resolved(edges), semantic, key)
    requires forall key :: key in canReach <==> ReachedFrom(Reversed(Resolved(edges)), semantic, key)
    ensures Selected(edges, semantic, required, edge) <==>
            || edge.carriesOutputLanguage
            || (edge.to.Some? && edge.to.value in required)
            || (edge.to.Some? && edge.from in reachable && edge.to.value in canReach)
            || (edge.to.None? && edge.from in semantic)
  {
    hide ReachedFrom, OnSemanticWalk;
    if edge.to.Some? {
      assert (edge.from, edge.to.value) in Resolved(edges);
      BothSidesMakeAWalk(Resolved(edges), semantic, edge.from, edge.to.value);
    }
  }

  /** The owners that semantic owners reach, and those that reach them. */
  method SemanticReach(edges: seq<Edge>, semantic: seq<Key>) returns (reachable: set<Key>, canReach: set<Key>)
    requires |Elements(semantic)| == |semantic|
    ensures forall key :: key in reachable <==> ReachedFrom(Resolved(edges), Elements(semantic), key)
    ensures forall key :: key in canReach <==> ReachedFrom(Reversed(Resolved(edges)), Elements(semantic), key)
  {
    hide ReachedFrom, Resolved, Reversed, Outgoing, Incoming, At;
    ghost var links := Resolved(edges);
    var outgoing, incoming := IndexEdges(edges);
    forall from, to
      ensures (from, to) in links <==> Some(to) in At(outgoing, from)
      ensures (to, from) in Reversed(links) <==> Some(from) in At(incoming, to)
    {
      ListsHoldLinks(edges, from, to);
    }
    reachable := Worklist(links, semantic, outgoing);
    canReach := Worklist(Reversed(links), semantic, incoming);
  }

  ghost function SelectedEdges(edges: seq<Edge>, semantic: set<Key>, required: set<Key>): set<Edge> {
    set e | e in edges && Selected(edges, semantic, required, e)
  }

  ghost predicate SurfaceOf(chosen: set<Edge>, semantic: set<Key>, nodes: set<nat>, connected: set<Key>) {
    && (forall node :: node in nodes <==> exists e :: e in chosen && e.node == node)
    && (forall key :: key in connected <==> key in semantic || exists e :: e in chosen && key in Ends(e))
  }

  lemma SurfaceGrows(chosen: set<Edge>, semantic: set<Key>, nodes: set<nat>, connected: set<Key>, edge: Edge)
    requires SurfaceOf(chosen, semantic, nodes, connected)
    ensures SurfaceOf(chosen + {edge}, semantic, nodes + {edge.node}, connected + Ends(edge))
  {
    hide Ends;
  }

  /** The output surface: its component nodes are those of the selected edges, its
      owners the semantic ones and the ends of selected edges. */
  method OutputSurface(edges: seq<Edge>, semantic: seq<Key>, required: set<Key>)
    returns (nodes: set<nat>, connected: set<Key>)
    requires |Elements(semantic)| == |semantic|
    ensures SurfaceOf(SelectedEdges(edges, Elements(semantic), required), Elements(semantic), nodes, connected)
  {
    var semanticKeys := set key | key in semantic;
    var reachable, canReach := SemanticReach(edges, semantic);
    nodes, connected := {}, semanticKeys;
    ghost var chosen: set<Edge> := {};
    assert SurfaceOf(chosen, semanticKeys, nodes, connected);
    hide ReachedFrom, Selected, Resolved, Reversed, Ends, SurfaceOf;
    for i := 0 to |edges|
      invariant chosen == set e | e in edges[..i] && Selected(edges, semanticKeys, required, e)
      invariant SurfaceOf(chosen, semanticKeys, nodes, connected)
    {
      var edge := edges[i];
      var targetsRequired := if edge.to.Some? then edge.to.value in required else false;
      var connects := if edge.to.Some? then edge.from in reachable && edge.to.value in canReach else false;
      var unresolvedChild := edge.to.None? && edge.from in semanticKeys;
      SelectedBySearch(edges, semanticKeys, required, reachable, canReach, edge);
      assert edges[..i + 1] == edges[..i] + [edge];
      if edge.carriesOutputLanguage || targetsRequired || connects || unresolvedChild {
        SurfaceGrows(chosen, semanticKeys, nodes, connected, edge);
        nodes := nodes + {edge.node};
        connected := connected + Ends(edge);
        chosen := chosen + {edge};
      }
    }
    assert edges[..|edges|] == edges;
  }

  /** No owner on a walk between semantic owners is left out. */
  lemma WalksAreConnected(edges: seq<Edge>, semantic: set<Key>, required: set<Key>, path: seq<Key>, i: nat)
    requires Walk(Resolved(edges), path) && path[0] in semantic && path[|path| - 1] in semantic && i < |path|
    ensures path[i] in semantic || exists e :: e in edges && Selected(edges, semantic, required, e) && path[i] in Ends(e)
  {
    if i + 1 < |path| {
      assert StepOfWalk(Resolved(edges), semantic, path, i, path[i], path[i + 1]);
      assert (path[i], path[i + 1]) in Resolved(edges);
      var e :| e in edges && e.from == path[i] && e.to == Some(path[i + 1]);
      assert Selected(edges, semantic, required, e);
    }
  }

  // ---- The search that mocks can cut ---------------------------------------------------

  /** What the search may follow: a dependency that is declared and not blocked. */
  function Allowed(dependencies: map<Key, seq<Key>>, declared: set<Key>, blocked: set<Key>): Links {
    set from, to | from in dependencies && to in dependencies[from] && to in declared && to !in blocked :: (from, to)
  }

  ghost function Unblocked(roots: seq<Key>, blocked: set<Key>): set<Key> {
    Elements(roots) - blocked
  }

  /** The keys of a set that remain after some are deleted, in the order it lists them. */
  function Remaining(roots: seq<Key>, blocked: set<Key>): (remaining: seq<Key>)
    requires |Elements(roots)| == |roots|
    ensures Elements(remaining) == Unblocked(roots, blocked) && |Elements(remaining)| == |remaining|
  {
    if roots == [] then []
    else
      var front := roots[..|roots| - 1];
      var last := roots[|roots| - 1];
      assert Elements(roots) == Elements(front) + {last} && |Elements(front)| == |front| && last !in front by {
        LastIsFresh(roots);
      }
      var rest := Remaining(front, blocked);
      if last in blocked then rest
      else
        assert Elements(rest + [last]) == Elements(rest) + {last};
        rest + [last]
  }

  lemma {:induction false} ElementsAreFew(keys: seq<Key>)
    ensures |Elements(keys)| <= |keys|
  {
    if keys != [] {
      var front := keys[..|keys| - 1];
      ElementsAreFew(front);
      assert Elements(keys) == Elements(front) + {keys[|keys| - 1]};
    }
  }

  lemma LastIsFresh(keys: seq<Key>)
    requires keys != [] && |Elements(keys)| == |keys|
    ensures
      var front := keys[..|keys| - 1];
      Elements(keys) == Elements(front) + {keys[|keys| - 1]} && |Elements(front)| == |front| && keys[|keys| - 1] !in front
  {
    var front := keys[..|keys| - 1];
    ElementsAreFew(front);
    assert Elements(keys) == Elements(front) + {keys[|keys| - 1]};
    assert keys[|keys| - 1] in front ==> Elements(keys) == Elements(front);
  }

  /** The search stops as soon as nothing required is missing, and still answers as a
      full search would: the test does not reach the source exactly when nothing is
      required, or something required has no walk from an unblocked root that keeps
      to declared, unblocked dependencies. */
  method DoesNotReach(
    roots: seq<Key>, required: set<Key>, dependencies: map<Key, seq<Key>>, declared: set<Key>, blocked: set<Key>)
    returns (reported: bool)
    requires |Elements(roots)| == |roots|
    ensures reported <==>
            required == {} ||
            exists key :: key in required &&
              !ReachedFrom(Allowed(dependencies, declared, blocked), Unblocked(roots, blocked), key)
  {
    hide Searching, ReachedFrom;
    ghost var links := Allowed(dependencies, declared, blocked);
    ghost var start := Unblocked(roots, blocked);
    var queue := Remaining(roots, blocked);
    var visited := set key | key in queue;
    var index := 0;
    Started(links, queue);
    while index < |queue| && exists key :: key in required && key !in visited
      invariant Searching(links, start, visited, queue, index) && index <= |queue|
      decreases |start + Targets(links)| - index
    {
      QueueIsBounded(links, start, visited, queue, index);
      var current := queue[index];
      var next := if current in dependencies then dependencies[current] else [];
      var i := 0;
      while i < |next|
        invariant 0 <= i <= |next| && index < |queue| && queue[index] == current
        invariant Searching(links, start, visited, queue, index)
        invariant forall k :: 0 <= k < i && next[k] in declared && next[k] !in blocked ==> next[k] in visited
      {
        var dependency := next[i];
        if dependency in declared && dependency !in blocked && dependency !in visited {
          assert (current, dependency) in links;
          Found(links, start, visited, queue, index, index, dependency);
          visited := visited + {dependency};
          queue := queue + [dependency];
        }
        i := i + 1;
      }
      Followed(links, start, visited, queue, index);
      index := index + 1;
    }
    reported := required == {} || exists key :: key in required && key !in visited;
    VisitedAreReached(links, start, visited, queue, index);
    if index == |queue| {
      Exhausted(links, start, visited, queue);
    }
  }

  lemma VisitedAreReached(links: Links, roots: set<Key>, visited: set<Key>, queue: seq<Key>, index: nat)
    requires Searching(links, roots, visited, queue, index)
    ensures index <= |queue|
    ensures forall key :: key in visited ==> ReachedFrom(links, roots, key)
  {
  }

  /** Blocking more, or declaring less, can only cut the test off. */
  lemma BlockingOnlyCuts(
    roots: seq<Key>, dependencies: map<Key, seq<Key>>, declared: set<Key>, blocked: set<Key>, more: set<Key>, key: Key)
    requires blocked <= more
    requires ReachedFrom(Allowed(dependencies, declared, more), Unblocked(roots, more), key)
    ensures ReachedFrom(Allowed(dependencies, declared, blocked), Unblocked(roots, blocked), key)
    ensures key !in more
  {
    var cut := Allowed(dependencies, declared, more);
    var root :| root in Unblocked(roots, more) && Reaches(cut, root, key);
    var path :| WalkBetween(cut, path, root, key);
    assert cut <= Allowed(dependencies, declared, blocked) && root in Unblocked(roots, blocked);
    assert WalkBetween(Allowed(dependencies, declared, blocked), path, root, key);
    assert |path| > 1 ==> (path[|path| - 2], path[|path| - 2 + 1]) in cut;
  }
}
