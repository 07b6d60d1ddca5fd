/** The bounded search of the accessibility tree: a depth-first walk cut off by depth, by
    a node budget, by a match limit and by a deadline, against the plain preorder it refines.

    The tree is what the desktop answered to the walk; a graph with cycles is its unfolding. */
module TreeSearch {
  import opened Wrappers
  import Text

  datatype Info = Info(name: string, description: string, role: string, states: seq<string>)

  /** An element as read: whether its reference is usable, what it says about itself, and
      its children unless it manages its descendants itself. */
  datatype Tree = Tree(valid: bool, info: Info, manages: bool, children: seq<Tree>)

  datatype Node = Node(info: Info, app: string, depth: nat, childCount: nat)

  /** The query, lower-cased beforehand by `lower`, and the bounds. */
  datatype Search = Search(lower: string -> string, query: string, role: string, states: set<string>,
                           maxDepth: nat, maxNodes: nat, maxResults: nat)

  /** The walker: nodes seen, matches, and how many more looks at the context find it live. */
  datatype Walk = Walk(all: seq<Node>, matches: seq<Node>, truncated: bool, ticks: nat)

  function Kids(t: Tree): seq<Tree> {
    if t.manages then [] else t.children
  }

  /** `normalizeUIBounds` */
  function Bound(asked: int, default: nat, most: nat): (n: nat)
    requires 0 < default <= most
    ensures 0 < n <= most
    ensures 0 < asked <= most ==> n == asked
  {
    if asked <= 0 then default else if asked > most then most else asked
  }

  predicate SearchOk(c: Search) {
    c.maxNodes > 0 && c.maxResults > 0
  }

  // ------------------------------------------------------------------- matching

  predicate ContainsAt(s: string, part: string, i: nat) {
    i + |part| <= |s| && s[i..i + |part|] == part
  }

  predicate Contains(s: string, part: string) {
    exists i: nat :: i <= |s| && ContainsAt(s, part, i)
  }

  /** `matchesNode`; the role is compared after trimming. */
  predicate Matches(c: Search, n: Node) {
    (c.role == "" || c.lower(Text.Trim(n.info.role)) == c.role) &&
    (forall s :: s in c.states ==> exists i :: 0 <= i < |n.info.states| && c.lower(n.info.states[i]) == s) &&
    (c.query == "" || Contains(c.lower(n.info.name + "\n" + n.info.description + "\n" + n.info.role), c.query))
  }

  function Filter(c: Search, nodes: seq<Node>): (kept: seq<Node>)
    ensures |kept| <= |nodes|
  {
    if nodes == [] then []
    else
      var init, last := nodes[..|nodes| - 1], nodes[|nodes| - 1];
      if Matches(c, last) then Filter(c, init) + [last] else Filter(c, init)
  }

  // ------------------------------------------------------------- the plain order

  function Preorder(c: Search, t: Tree, app: string, depth: nat): seq<Node>
    requires depth <= c.maxDepth + 1
    decreases c.maxDepth + 1 - depth, 0
  {
    if depth > c.maxDepth || !t.valid then []
    else [Node(t.info, app, depth, |Kids(t)|)] + PreorderAll(c, Kids(t), app, depth + 1)
  }

  function PreorderAll(c: Search, ts: seq<Tree>, app: string, depth: nat): seq<Node>
    requires depth <= c.maxDepth + 1
    decreases c.maxDepth + 1 - depth, |ts| + 1
  {
    if ts == [] then [] else Preorder(c, ts[0], app, depth) + PreorderAll(c, ts[1..], app, depth)
  }

  // -------------------------------------------------------------------- the walk

  /** `matchLimitReached` */
  predicate LimitReached(c: Search, w: Walk) {
    (c.query != "" || c.role != "" || c.states != {} || c.maxResults < c.maxNodes) && |w.matches| >= c.maxResults
  }

  /** A look at the context. */
  predicate Expired(w: Walk) {
    w.ticks == 0
  }

  function Look(w: Walk): Walk {
    if w.ticks == 0 then w else w.(ticks := w.ticks - 1)
  }

  function Visit(c: Search, w: Walk, n: Node): Walk {
    var seen := w.(all := w.all + [n]);
    if !Matches(c, n) then seen
    else if |w.matches| < c.maxResults then seen.(matches := w.matches + [n])
    else seen.(truncated := true)
  }

  /** `walk` */
  function WalkTree(c: Search, w: Walk, t: Tree, app: string, depth: nat): Walk
    requires depth <= c.maxDepth + 1
    decreases c.maxDepth + 1 - depth, 0
  {
    var l := Look(w);
    if Expired(w) || depth > c.maxDepth || |w.all| >= c.maxNodes then
      if |w.all| >= c.maxNodes then l.(truncated := true) else l
    else if !t.valid then l
    else
      var v := Visit(c, l, Node(t.info, app, depth, |Kids(t)|));
      if LimitReached(c, v) then v.(truncated := true) else WalkAll(c, v, Kids(t), app, depth + 1)
  }

  /** The loop over the children. */
  function WalkAll(c: Search, w: Walk, ts: seq<Tree>, app: string, depth: nat): Walk
    requires depth <= c.maxDepth + 1
    decreases c.maxDepth + 1 - depth, |ts| + 1
  {
    if ts == [] then w
    else
      var n := WalkTree(c, w, ts[0], app, depth);
      if Expired(n) || |n.all| >= c.maxNodes || LimitReached(c, n) then Look(n) else WalkAll(c, Look(n), ts[1..], app, depth)
  }

  /** An application root and its name. */
  datatype Root = Root(name: string, tree: Tree)

  predicate Chosen(c: Search, filter: string, r: Root) {
    filter == "" || Contains(c.lower(r.name), filter)
  }

  /** The roots' trees one after another, as the plain order has them. */
  function PreorderRoots(c: Search, filter: string, roots: seq<Root>): seq<Node> {
    if roots == [] then []
    else (if Chosen(c, filter, roots[0]) then Preorder(c, roots[0].tree, roots[0].name, 0) else []) + PreorderRoots(c, filter, roots[1..])
  }

  /** The loop of `runUIWalkOnConn`. */
  function WalkRoots(c: Search, filter: string, w: Walk, roots: seq<Root>): Walk
    decreases |roots|
  {
    if roots == [] then w
    else if Expired(w) || |w.all| >= c.maxNodes then Look(w)
    else if !Chosen(c, filter, roots[0]) then WalkRoots(c, filter, Look(w), roots[1..])
    else
      var n := WalkTree(c, Look(w), roots[0].tree, roots[0].name, 0);
      if LimitReached(c, n) then n else WalkRoots(c, filter, n, roots[1..])
  }

  /** The whole search; `timeout` says the context ends by its deadline rather than by cancellation. */
  function Run(c: Search, filter: string, roots: seq<Root>, ticks: nat, timeout: bool): Walk {
    var w := WalkRoots(c, filter, Walk([], [], false, ticks), roots);
    if Expired(w) && timeout then w.(truncated := true) else w
  }

  // ---------------------------------------------------------------- refinement

  /** What holds at every moment: budgets kept, and the matches are exactly the filter of what was seen. */
  ghost predicate Sound(c: Search, w: Walk) {
    |w.all| <= c.maxNodes && |w.matches| <= c.maxResults && w.matches == Filter(c, w.all)
  }

  /** The walk goes on. */
  predicate Going(c: Search, w: Walk) {
    !Expired(w) && |w.all| < c.maxNodes && !LimitReached(c, w)
  }

  lemma FilterLast(c: Search, nodes: seq<Node>, n: Node)
    ensures Filter(c, nodes + [n]) == if Matches(c, n) then Filter(c, nodes) + [n] else Filter(c, nodes)
  {
    assert (nodes + [n])[..|nodes|] == nodes;
  }

  lemma VisitSound(c: Search, w: Walk, n: Node)
    requires SearchOk(c) && Sound(c, w) && |w.all| < c.maxNodes && !LimitReached(c, w)
    ensures Sound(c, Visit(c, w, n)) && Visit(c, w, n).all == w.all + [n] && Visit(c, w, n).ticks == w.ticks
  {
    FilterLast(c, w.all, n);
  }

  /** `b` is `a` with some first part of `order` appended; all of it, if the walk is still going. */
  ghost predicate Appends(c: Search, a: Walk, b: Walk, order: seq<Node>) {
    Sound(c, b) && b.ticks <= a.ticks && |a.all| <= |b.all| && b.all[..|a.all|] == a.all && b.all[|a.all|..] <= order &&
    (Going(c, b) ==> b.all == a.all + order)
  }

  lemma {:induction false} TreeAppends(c: Search, w: Walk, t: Tree, app: string, depth: nat)
    requires SearchOk(c) && Sound(c, w) && !LimitReached(c, w) && depth <= c.maxDepth + 1
    ensures Appends(c, w, WalkTree(c, w, t, app, depth), Preorder(c, t, app, depth))
    decreases c.maxDepth + 1 - depth, 0
  {
    if Expired(w) || depth > c.maxDepth || |w.all| >= c.maxNodes || !t.valid {
      hide Visit, Filter;
    } else {
      var n := Node(t.info, app, depth, |Kids(t)|);
      var v := Visit(c, Look(w), n);
      VisitSound(c, Look(w), n);
      hide Visit, Filter;
      if !LimitReached(c, v) {
        AllAppend(c, v, Kids(t), app, depth + 1);
        AppendsMore(c, w, v, WalkAll(c, v, Kids(t), app, depth + 1), [n], PreorderAll(c, Kids(t), app, depth + 1));
      }
    }
  }

  lemma {:induction false} AllAppend(c: Search, w: Walk, ts: seq<Tree>, app: string, depth: nat)
    requires SearchOk(c) && Sound(c, w) && !LimitReached(c, w) && depth <= c.maxDepth + 1
    ensures Appends(c, w, WalkAll(c, w, ts, app, depth), PreorderAll(c, ts, app, depth))
    decreases c.maxDepth + 1 - depth, |ts| + 1
  {
    if ts != [] {
      var n := WalkTree(c, w, ts[0], app, depth);
      TreeAppends(c, w, ts[0], app, depth);
      if Going(c, n) {
        AllAppend(c, Look(n), ts[1..], app, depth);
        AppendsMore(c, w, Look(n), WalkAll(c, Look(n), ts[1..], app, depth), Preorder(c, ts[0], app, depth), PreorderAll(c, ts[1..], app, depth));
      } else {
        StopsEarly(c, w, n, Preorder(c, ts[0], app, depth), PreorderAll(c, ts[1..], app, depth));
      }
    }
  }

  /** Two stretches one after the other; the first was complete. */
  lemma AppendsMore(c: Search, a: Walk, m: Walk, b: Walk, first: seq<Node>, second: seq<Node>)
    requires m.all == a.all + first && m.ticks <= a.ticks && Appends(c, m, b, second)
    ensures Appends(c, a, b, first + second)
  {
    assert b.all == m.all + b.all[|m.all|..];
    assert b.all[|a.all|..] == first + b.all[|m.all|..];
    assert a.all + (first + second) == a.all + first + second;
    assert b.all[..|a.all|] == m.all[..|a.all|] == a.all;
  }

  /** A stretch cut short ends the walk. */
  lemma StopsEarly(c: Search, a: Walk, n: Walk, first: seq<Node>, second: seq<Node>)
    requires Appends(c, a, n, first) && !Going(c, n)
    ensures Appends(c, a, Look(n), first + second)
  {
    assert first <= first + second;
  }

  lemma {:induction false} RootsAppend(c: Search, filter: string, w: Walk, roots: seq<Root>)
    requires SearchOk(c) && Sound(c, w) && !LimitReached(c, w)
    ensures Appends(c, w, WalkRoots(c, filter, w, roots), PreorderRoots(c, filter, roots))
    decreases |roots|
  {
    if roots == [] || Expired(w) || |w.all| >= c.maxNodes {
    } else if !Chosen(c, filter, roots[0]) {
      RootsAppend(c, filter, Look(w), roots[1..]);
      assert [] + PreorderRoots(c, filter, roots[1..]) == PreorderRoots(c, filter, roots[1..]);
    } else {
      var first, second := Preorder(c, roots[0].tree, roots[0].name, 0), PreorderRoots(c, filter, roots[1..]);
      var l := Look(w);
      var n := WalkTree(c, l, roots[0].tree, roots[0].name, 0);
      TreeAppends(c, l, roots[0].tree, roots[0].name, 0);
      if !LimitReached(c, n) {
        RootsAppend(c, filter, n, roots[1..]);
        if Going(c, n) {
          AppendsMore(c, w, n, WalkRoots(c, filter, n, roots[1..]), first, second);
        } else {
          NothingMore(c, filter, n, roots[1..]);
          StopsEarly(c, w, n, first, second);
        }
      } else {
        StopsEarly(c, w, n, first, second);
      }
    }
  }

  lemma NothingMore(c: Search, filter: string, w: Walk, roots: seq<Root>)
    requires Expired(w) || |w.all| >= c.maxNodes
    ensures WalkRoots(c, filter, w, roots).all == w.all && WalkRoots(c, filter, w, roots).matches == w.matches
    ensures WalkRoots(c, filter, w, roots).ticks <= w.ticks
  {
  }

  lemma {:induction false} FilterPrefix(c: Search, a: seq<Node>, b: seq<Node>)
    requires a <= b
    ensures Filter(c, a) <= Filter(c, b)
    decreases |b|
  {
    if a != b {
      FilterPrefix(c, a, b[..|b| - 1]);
    }
  }

  /** The bounded search refines the preorder: what it saw is a first part of it, no longer
      than the node budget; its matches are exactly the filter of that; and if it ended with
      budget, matches and time to spare, they are all the matches there are within the depth. */
  lemma SearchRefines(c: Search, filter: string, roots: seq<Root>, ticks: nat, timeout: bool)
    requires SearchOk(c)
    ensures var w, order := Run(c, filter, roots, ticks, timeout), PreorderRoots(c, filter, roots);
            w.all <= order && |w.all| <= c.maxNodes && |w.matches| <= c.maxResults && w.matches == Filter(c, w.all) &&
            w.matches <= Filter(c, order) &&
            (w.ticks > 0 && |w.all| < c.maxNodes && |w.matches| < c.maxResults ==> w.all == order && w.matches == Filter(c, order))
  {
    var start := Walk([], [], false, ticks);
    var w, order := WalkRoots(c, filter, start, roots), PreorderRoots(c, filter, roots);
    RootsAppend(c, filter, start, roots);
    assert w.all[0..] == w.all && [] + order == order;
    FilterPrefix(c, w.all, order);
  }

  // ------------------------------------------------------------------- the mark

  /** The budget ran out on an element that has children. */
  predicate FullAbove(c: Search, w: Walk) {
    |w.all| >= c.maxNodes && |w.all| > 0 && w.all[|w.all| - 1].childCount > 0
  }

  /** The mark is set exactly when the match limit was reached or the budget ran out above something. */
  predicate Marked(c: Search, w: Walk) {
    w.truncated <==> LimitReached(c, w) || FullAbove(c, w)
  }

  /** Walking on from where neither limit was met and nothing is marked. */
  ghost predicate Open(c: Search, w: Walk) {
    SearchOk(c) && Sound(c, w) && |w.all| < c.maxNodes && !LimitReached(c, w) && !w.truncated
  }

  lemma VisitMarks(c: Search, w: Walk, n: Node)
    requires Open(c, w)
    ensures !Visit(c, w, n).truncated
  {
    assert |w.matches| <= |w.all|;
  }

  lemma {:induction false} TreeMarks(c: Search, w: Walk, t: Tree, app: string, depth: nat)
    requires Open(c, w) && depth <= c.maxDepth + 1
    ensures Marked(c, WalkTree(c, w, t, app, depth))
    decreases c.maxDepth + 1 - depth, 0
  {
    if !Expired(w) && depth <= c.maxDepth && t.valid {
      var l, n := Look(w), Node(t.info, app, depth, |Kids(t)|);
      var v := Visit(c, l, n);
      VisitSound(c, l, n);
      VisitMarks(c, l, n);
      hide Visit, Sound;
      if !LimitReached(c, v) {
        if |v.all| < c.maxNodes {
          AllMark(c, v, Kids(t), app, depth + 1);
        } else if Kids(t) != [] {
          var f := WalkTree(c, v, Kids(t)[0], app, depth + 1);
          assert f.truncated && f.all == v.all;
        }
      }
    }
  }

  lemma {:induction false} AllMark(c: Search, w: Walk, ts: seq<Tree>, app: string, depth: nat)
    requires Open(c, w) && depth <= c.maxDepth + 1
    ensures Marked(c, WalkAll(c, w, ts, app, depth))
    decreases c.maxDepth + 1 - depth, |ts| + 1
  {
    if ts != [] {
      var n := WalkTree(c, w, ts[0], app, depth);
      TreeMarks(c, w, ts[0], app, depth);
      TreeAppends(c, w, ts[0], app, depth);
      hide WalkTree;
      if Going(c, n) {
        AllMark(c, Look(n), ts[1..], app, depth);
      }
    }
  }

  lemma {:induction false} RootsMark(c: Search, filter: string, w: Walk, roots: seq<Root>)
    requires Open(c, w)
    ensures Marked(c, WalkRoots(c, filter, w, roots))
    decreases |roots|
  {
    if roots != [] && !Expired(w) {
      var l := Look(w);
      if !Chosen(c, filter, roots[0]) {
        RootsMark(c, filter, l, roots[1..]);
      } else {
        var n := WalkTree(c, l, roots[0].tree, roots[0].name, 0);
        TreeMarks(c, l, roots[0].tree, roots[0].name, 0);
        TreeAppends(c, l, roots[0].tree, roots[0].name, 0);
        hide WalkTree, Chosen;
        if !LimitReached(c, n) && |n.all| < c.maxNodes {
          RootsMark(c, filter, n, roots[1..]);
        }
      }
    }
  }

  /** What the `truncated` mark of a search that ended in time does say. */
  lemma TruncatedExactly(c: Search, filter: string, roots: seq<Root>, ticks: nat, timeout: bool)
    requires SearchOk(c) && Run(c, filter, roots, ticks, timeout).ticks > 0
    ensures Marked(c, Run(c, filter, roots, ticks, timeout))
  {
    var start := Walk([], [], false, ticks);
    assert Filter(c, []) == [];
    RootsMark(c, filter, start, roots);
  }

  /** Completeness does not depend on the mark: a search that ended in time and below its match
      limit is complete exactly when the elements within the depth fit the node budget. */
  lemma CompleteExactly(c: Search, filter: string, roots: seq<Root>, ticks: nat, timeout: bool)
    requires SearchOk(c)
    requires var w := Run(c, filter, roots, ticks, timeout); w.ticks > 0 && !LimitReached(c, w)
    ensures var w, order := Run(c, filter, roots, ticks, timeout), PreorderRoots(c, filter, roots);
            w.all == order <==> |order| <= c.maxNodes
  {
    var start := Walk([], [], false, ticks);
    var w, order := WalkRoots(c, filter, start, roots), PreorderRoots(c, filter, roots);
    RootsAppend(c, filter, start, roots);
    assert w.all[0..] == w.all && [] + order == order;
    hide WalkRoots, PreorderRoots, Filter;
    if |w.all| >= c.maxNodes && |order| <= c.maxNodes {
      assert w.all == order[..|w.all|] == order;
    }
  }

  /** So an unset mark misleads exactly when the budget ran out on an element without children
      and there was more to see. */
  lemma TruncatedMisses(c: Search, filter: string, roots: seq<Root>, ticks: nat, timeout: bool)
    requires SearchOk(c) && Run(c, filter, roots, ticks, timeout).ticks > 0
    ensures var w, order := Run(c, filter, roots, ticks, timeout), PreorderRoots(c, filter, roots);
            !w.truncated && w.all != order <==>
            !LimitReached(c, w) && |order| > c.maxNodes && order[c.maxNodes - 1].childCount == 0
  {
    var w, order := Run(c, filter, roots, ticks, timeout), PreorderRoots(c, filter, roots);
    TruncatedExactly(c, filter, roots, ticks, timeout);
    SearchRefines(c, filter, roots, ticks, timeout);
    hide Run, PreorderRoots, Filter;
    if !LimitReached(c, w) {
      CompleteExactly(c, filter, roots, ticks, timeout);
      if |w.all| == c.maxNodes {
        assert w.all[c.maxNodes - 1] == order[c.maxNodes - 1];
      } else {
        FullOrComplete(c, filter, roots, ticks, timeout);
      }
    }
  }

  lemma FullOrComplete(c: Search, filter: string, roots: seq<Root>, ticks: nat, timeout: bool)
    requires SearchOk(c)
    requires var w := Run(c, filter, roots, ticks, timeout); w.ticks > 0 && !LimitReached(c, w) && |w.all| < c.maxNodes
    ensures Run(c, filter, roots, ticks, timeout).all == PreorderRoots(c, filter, roots)
  {
    var start := Walk([], [], false, ticks);
    var order := PreorderRoots(c, filter, roots);
    RootsAppend(c, filter, start, roots);
    assert [] + order == order;
    hide WalkRoots, PreorderRoots, Filter;
  }

  /** Two leaves under one element. */
  function Fork(info: Info, app: string): seq<Root> {
    var leaf := Tree(true, info, false, []);
    [Root(app, Tree(true, info, false, [leaf, leaf]))]
  }

  lemma ForkPreorder(c: Search, info: Info, app: string)
    requires c.maxDepth >= 1
    ensures PreorderRoots(c, "", Fork(info, app)) == [Node(info, app, 0, 2), Node(info, app, 1, 0), Node(info, app, 1, 0)]
  {
    var leaf := Tree(true, info, false, []);
    var top := Tree(true, info, false, [leaf, leaf]);
    assert Kids(leaf) == [] && Kids(top) == [leaf, leaf];
    assert [leaf, leaf][1..] == [leaf] && [leaf][1..] == [];
    assert Preorder(c, leaf, app, 1) == [Node(info, app, 1, 0)];
    assert PreorderAll(c, [leaf], app, 1) == [Node(info, app, 1, 0)];
    assert PreorderAll(c, [leaf, leaf], app, 1) == [Node(info, app, 1, 0), Node(info, app, 1, 0)];
    assert Preorder(c, top, app, 0) == [Node(info, app, 0, 2), Node(info, app, 1, 0), Node(info, app, 1, 0)];
    var roots := [Root(app, top)];
    assert roots[1..] == [] && PreorderRoots(c, "", []) == [];
    assert PreorderRoots(c, "", roots) == Preorder(c, top, app, 0) + [];
  }

  /** Such a search: with two leaves under one element and a budget for two, any search that ends
      in time and below its match limit ends unmarked and without the second leaf. */
  lemma MisleadingMark(c: Search, info: Info, app: string, ticks: nat, timeout: bool)
    requires SearchOk(c) && c.maxNodes == 2 && c.maxDepth >= 1
    requires var w := Run(c, "", Fork(info, app), ticks, timeout); w.ticks > 0 && !LimitReached(c, w)
    ensures var w := Run(c, "", Fork(info, app), ticks, timeout);
            !w.truncated && w.all == [Node(info, app, 0, 2), Node(info, app, 1, 0)]
    ensures |PreorderRoots(c, "", Fork(info, app))| == 3
  {
    var roots := Fork(info, app);
    var w, order := Run(c, "", roots, ticks, timeout), PreorderRoots(c, "", roots);
    ForkPreorder(c, info, app);
    TruncatedMisses(c, "", roots, ticks, timeout);
    SearchRefines(c, "", roots, ticks, timeout);
    CompleteExactly(c, "", roots, ticks, timeout);
    hide Run, PreorderRoots, Fork, Filter;
    if |w.all| < 2 {
      FullOrComplete(c, "", roots, ticks, timeout);
    }
    assert w.all == order[..2];
  }

  // ------------------------------------------------------------- what is looked for

  /** An element matches exactly when its trimmed role is the one asked for, it bears every state
      asked for, and its name, description and role, one under the other, hold the query, all in
      lower case; what was not asked for does not matter. */
  lemma MatchesExactly(c: Search, n: Node)
    ensures Matches(c, n) <==>
              (c.role != "" ==> c.lower(Text.Trim(n.info.role)) == c.role) &&
              (forall s :: s in c.states ==> exists state :: state in n.info.states && c.lower(state) == s) &&
              exists before, after :: c.lower(n.info.name + "\n" + n.info.description + "\n" + n.info.role) == before + c.query + after
  {
    var text := c.lower(n.info.name + "\n" + n.info.description + "\n" + n.info.role);
    ContainsExactly(text, c.query);
    if c.query == "" { assert text == "" + c.query + text; }
    forall s | s in c.states ensures (exists i :: 0 <= i < |n.info.states| && c.lower(n.info.states[i]) == s) <==> exists state :: state in n.info.states && c.lower(state) == s {
      if i :| 0 <= i < |n.info.states| && c.lower(n.info.states[i]) == s { assert n.info.states[i] in n.info.states; }
      if state :| state in n.info.states && c.lower(state) == s {
        var i :| 0 <= i < |n.info.states| && n.info.states[i] == state;
        assert c.lower(n.info.states[i]) == s;
      }
    }
    hide Contains;
  }

  lemma ContainsExactly(s: string, part: string)
    ensures Contains(s, part) <==> exists before, after :: s == before + part + after
  {
    if i: nat :| i <= |s| && ContainsAt(s, part, i) {
      assert s == s[..i] + part + s[i + |part|..];
    }
    if before, after :| s == before + part + after {
      assert ContainsAt(s, part, |before|);
    }
  }

  /** The matches are among the elements seen, in their order, and exactly those that match. */
  lemma {:induction false} FilterExactly(c: Search, nodes: seq<Node>, n: Node)
    ensures n in Filter(c, nodes) <==> n in nodes && Matches(c, n)
    decreases |nodes|
  {
    if nodes != [] {
      assert nodes == nodes[..|nodes| - 1] + [nodes[|nodes| - 1]];
      FilterExactly(c, nodes[..|nodes| - 1], n);
    }
  }

  /** The element at the end of a path of child numbers, if every element on the way is usable. */
  function At(t: Tree, path: seq<nat>): Option<Tree>
    decreases |path|
  {
    if !t.valid then None
    else if path == [] then Some(t)
    else if path[0] < |Kids(t)| then At(Kids(t)[path[0]], path[1..])
    else None
  }

  /** The path leads to the element, within the depth. */
  ghost predicate Leads(c: Search, t: Tree, app: string, depth: nat, path: seq<nat>, n: Node) {
    var e := At(t, path);
    e.Some? && depth + |path| <= c.maxDepth && n == Node(e.value.info, app, depth + |path|, |Kids(e.value)|)
  }

  /** The plain order holds exactly the elements that some path leads to within the depth. */
  lemma {:induction false} PreorderExactly(c: Search, t: Tree, app: string, depth: nat, n: Node)
    requires depth <= c.maxDepth + 1
    ensures n in Preorder(c, t, app, depth) <==> exists path :: Leads(c, t, app, depth, path, n)
    decreases c.maxDepth + 1 - depth, 0
  {
    if depth <= c.maxDepth && t.valid {
      AllExactly(c, Kids(t), app, depth + 1, n);
      if n in PreorderAll(c, Kids(t), app, depth + 1) {
        var i, path :| 0 <= i < |Kids(t)| && Leads(c, Kids(t)[i], app, depth + 1, path, n);
        Longer(c, t, app, depth, i, path, n);
      }
      if n == Node(t.info, app, depth, |Kids(t)|) { assert Leads(c, t, app, depth, [], n); }
      if path :| Leads(c, t, app, depth, path, n) && path != [] {
        assert Leads(c, Kids(t)[path[0]], app, depth + 1, path[1..], n);
      }
    }
  }

  lemma Longer(c: Search, t: Tree, app: string, depth: nat, i: nat, path: seq<nat>, n: Node)
    requires t.valid && i < |Kids(t)| && Leads(c, Kids(t)[i], app, depth + 1, path, n)
    ensures Leads(c, t, app, depth, [i] + path, n)
  {
    assert ([i] + path)[1..] == path;
  }

  lemma {:induction false} AllExactly(c: Search, ts: seq<Tree>, app: string, depth: nat, n: Node)
    requires depth <= c.maxDepth + 1
    ensures n in PreorderAll(c, ts, app, depth) <==> exists i, path :: 0 <= i < |ts| && Leads(c, ts[i], app, depth, path, n)
    decreases c.maxDepth + 1 - depth, |ts| + 1
  {
    if ts != [] {
      PreorderExactly(c, ts[0], app, depth, n);
      AllExactly(c, ts[1..], app, depth, n);
      hide Leads;
      if i, path :| 0 <= i < |ts[1..]| && Leads(c, ts[1..][i], app, depth, path, n) {
        assert Leads(c, ts[i + 1], app, depth, path, n);
      }
      if i, path :| 0 <= i < |ts| && Leads(c, ts[i], app, depth, path, n) {
        if i > 0 { assert Leads(c, ts[1..][i - 1], app, depth, path, n); }
      }
    }
  }

  /** So a search in time and within its budgets finds exactly the matching elements that paths from
      the chosen applications lead to within the depth. */
  lemma {:induction false} RootsExactly(c: Search, filter: string, roots: seq<Root>, n: Node)
    ensures n in PreorderRoots(c, filter, roots) <==>
              exists i, path :: 0 <= i < |roots| && Chosen(c, filter, roots[i]) && Leads(c, roots[i].tree, roots[i].name, 0, path, n)
    decreases |roots|
  {
    if roots != [] {
      PreorderExactly(c, roots[0].tree, roots[0].name, 0, n);
      RootsExactly(c, filter, roots[1..], n);
      hide Leads, Chosen, Preorder;
      if i, path :| 0 <= i < |roots[1..]| && Chosen(c, filter, roots[1..][i]) && Leads(c, roots[1..][i].tree, roots[1..][i].name, 0, path, n) {
        assert Chosen(c, filter, roots[i + 1]) && Leads(c, roots[i + 1].tree, roots[i + 1].name, 0, path, n);
      }
      if i, path :| 0 <= i < |roots| && Chosen(c, filter, roots[i]) && Leads(c, roots[i].tree, roots[i].name, 0, path, n) {
        if i > 0 { assert Chosen(c, filter, roots[1..][i - 1]) && Leads(c, roots[1..][i - 1].tree, roots[1..][i - 1].name, 0, path, n); }
      }
    }
  }

  lemma FindsExactly(c: Search, filter: string, roots: seq<Root>, ticks: nat, timeout: bool, n: Node)
    requires SearchOk(c)
    requires var w := Run(c, filter, roots, ticks, timeout); w.ticks > 0 && |w.all| < c.maxNodes && |w.matches| < c.maxResults
    ensures n in Run(c, filter, roots, ticks, timeout).matches <==>
              Matches(c, n) && exists i, path :: 0 <= i < |roots| && Chosen(c, filter, roots[i]) && Leads(c, roots[i].tree, roots[i].name, 0, path, n)
  {
    SearchRefines(c, filter, roots, ticks, timeout);
    FilterExactly(c, PreorderRoots(c, filter, roots), n);
    RootsExactly(c, filter, roots, n);
    hide Run, PreorderRoots, Filter, Matches, Leads, Chosen;
  }

  // ------------------------------------------------------------------- the class

  /** The walker object, whose fields the recursion updates as it goes. */
  class Walker {
    const search: Search
    var all: seq<Node>
    var matches: seq<Node>
    var truncated: bool
    var ticks: nat

    constructor (search: Search, ticks: nat)
      ensures this.search == search && View() == Walk([], [], false, ticks)
    {
      this.search, this.all, this.matches, this.truncated, this.ticks := search, [], [], false, ticks;
    }

    function View(): Walk
      reads this
    {
      Walk(all, matches, truncated, ticks)
    }

    /** One look at the context: whether it has ended. */
    method Ended() returns (ended: bool)
      modifies this`ticks
      ensures ended == Expired(old(View())) && View() == Look(old(View()))
    {
      ended := ticks == 0;
      if !ended {
        ticks := ticks - 1;
      }
    }

    /** `walk` */
    method WalkFrom(t: Tree, app: string, depth: nat)
      requires depth <= search.maxDepth + 1
      modifies this
      ensures View() == WalkTree(search, old(View()), t, app, depth)
      decreases search.maxDepth + 1 - depth
    {
      hide Matches;
      var ended := Ended();
      if ended || depth > search.maxDepth || |all| >= search.maxNodes {
        if |all| >= search.maxNodes {
          truncated := true;
        }
        return;
      }
      if !t.valid {
        return;
      }
      var children := if t.manages then [] else t.children;
      var node := Node(t.info, app, depth, |children|);
      all := all + [node];
      if Matches(search, node) {
        if |matches| < search.maxResults {
          matches := matches + [node];
        } else {
          truncated := true;
        }
      }
      if LimitReached(search, View()) {
        truncated := true;
        return;
      }
      ghost var visited := View();
      ghost var whole := WalkAll(search, visited, children, app, depth + 1);
      for i := 0 to |children|
        invariant whole == WalkAll(search, View(), children[i..], app, depth + 1)
      {
        assert children[i..][0] == children[i] && children[i..][1..] == children[i + 1..];
        WalkFrom(children[i], app, depth + 1);
        ended := Ended();
        if ended || |all| >= search.maxNodes {
          return;
        }
        if LimitReached(search, View()) {
          return;
        }
      }
    }

    /** `runUIWalkOnConn`, once the roots are known. */
    method WalkApplications(roots: seq<Root>, filter: string, timeout: bool)
      requires View() == Walk([], [], false, ticks)
      modifies this
      ensures View() == Run(search, filter, roots, old(ticks), timeout)
    {
      ghost var whole := WalkRoots(search, filter, View(), roots);
      assert roots[0..] == roots;
      for i := 0 to |roots|
        invariant whole == WalkRoots(search, filter, View(), roots[i..])
      {
        assert roots[i..][0] == roots[i] && roots[i..][1..] == roots[i + 1..];
        var ended := Ended();
        if ended || |all| >= search.maxNodes {
          break;
        }
        if Chosen(search, filter, roots[i]) {
          WalkFrom(roots[i].tree, roots[i].name, 0);
          if LimitReached(search, View()) {
            break;
          }
        }
      }
      if ticks == 0 && timeout {
        truncated := true;
      }
    }
  }
}
