/**
 * Grouping query pairs by connected component, with a union-find table that halves its paths: the group of a text
 * is the smallest key that a chain of pairs connects it to.
 */
module PairGrouping {
  import opened Basics

  datatype Pair = Pair(queryA: string, queryB: string, source: Option<string>, pairLabel: Option<bool>)

  /** One request of the converted stream; `group` is the component its text belongs to. */
  datatype Request = Request(pairIndex: nat, side: char, text: string, source: string, group: nat, pairLabel: Option<bool>)

  datatype Refusal = BlankText | MissingSource

  /** The digest of a normalized text. */
  type TextKey = string -> nat

  // ----- connectivity -----

  type Edges = set<(nat, nat)>

  function EdgesOf(key: TextKey, pairs: seq<Pair>): Edges {
    set p | p in pairs :: (key(p.queryA), key(p.queryB))
  }

  ghost predicate Linked(edges: Edges, x: nat, y: nat) {
    (x, y) in edges || (y, x) in edges
  }

  ghost predicate IsChain(edges: Edges, path: seq<nat>) {
    path != [] && forall i :: 0 <= i < |path| - 1 ==> Linked(edges, path[i], path[i + 1])
  }

  ghost predicate Joins(edges: Edges, path: seq<nat>, x: nat, y: nat) {
    IsChain(edges, path) && path[0] == x && path[|path| - 1] == y
  }

  /** A chain of pairs leads from x to y. */
  ghost predicate Connected(edges: Edges, x: nat, y: nat) {
    exists path :: Joins(edges, path, x, y)
  }

  /** The group of x: the smallest key a chain can reach. */
  ghost predicate IsGroup(edges: Edges, x: nat, g: nat) {
    Connected(edges, x, g) && forall y :: Connected(edges, x, y) ==> g <= y
  }

  lemma ConnectedSelf(edges: Edges, x: nat)
    ensures Connected(edges, x, x)
  {
    assert Joins(edges, [x], x, x);
  }

  lemma ConnectedLink(edges: Edges, x: nat, y: nat)
    requires Linked(edges, x, y)
    ensures Connected(edges, x, y)
  {
    assert Joins(edges, [x, y], x, y);
  }

  lemma ConnectedBack(edges: Edges, x: nat, y: nat)
    requires Connected(edges, x, y)
    ensures Connected(edges, y, x)
  {
    var path :| Joins(edges, path, x, y);
    var back := seq(|path|, i requires 0 <= i < |path| => path[|path| - 1 - i]);
    forall i | 0 <= i < |back| - 1
      ensures Linked(edges, back[i], back[i + 1])
    {
      assert Linked(edges, path[|path| - 2 - i], path[|path| - 1 - i]);
    }
    assert Joins(edges, back, y, x);
  }

  lemma ConnectedOn(edges: Edges, x: nat, y: nat, z: nat)
    requires Connected(edges, x, y) && Connected(edges, y, z)
    ensures Connected(edges, x, z)
  {
    var a :| Joins(edges, a, x, y);
    var b :| Joins(edges, b, y, z);
    var path := a + b[1..];
    forall i | 0 <= i < |path| - 1
      ensures Linked(edges, path[i], path[i + 1])
    {
      if i >= |a| - 1 {
        assert path[i] == b[i - |a| + 1] && path[i + 1] == b[i - |a| + 2];
      }
    }
    assert Joins(edges, path, x, z);
  }

  lemma ConnectedMore(edges: Edges, more: Edges, x: nat, y: nat)
    requires Connected(edges, x, y) && edges <= more
    ensures Connected(more, x, y)
  {
    var path :| Joins(edges, path, x, y);
    assert forall i :: 0 <= i < |path| - 1 ==> Linked(edges, path[i], path[i + 1]) ==> Linked(more, path[i], path[i + 1]);
    assert Joins(more, path, x, y);
  }

  // ----- the parent table -----

  type Parents = map<nat, nat>

  function Up(parent: Parents, x: nat): nat
    requires x in parent
  {
    parent[x]
  }

  /** Every parent is in the table and is not larger than its child, so walking up ends. */
  ghost predicate WellFounded(parent: Parents) {
    forall x {:trigger Up(parent, x)} :: x in parent ==> Up(parent, x) in parent && Up(parent, x) <= x
  }

  ghost function Root(parent: Parents, x: nat): (r: nat)
    requires WellFounded(parent) && x in parent
    ensures r in parent && Up(parent, r) == r && r <= x
    decreases x
  {
    if Up(parent, x) == x then x else Root(parent, Up(parent, x))
  }

  /** Both tables have the same keys with the same roots. */
  ghost predicate SameRoots(before: Parents, after: Parents)
    requires WellFounded(before)
  {
    && WellFounded(after) && after.Keys == before.Keys
    && forall y {:trigger Root(after, y)} {:trigger Root(before, y)} :: y in before ==> Root(after, y) == Root(before, y)
  }

  /** The table after one step of path halving. */
  function Halved(parent: Parents, x: nat): Parents
    requires x in parent && Up(parent, x) in parent
  {
    parent[x := Up(parent, Up(parent, x))]
  }

  lemma HalvedWellFounded(parent: Parents, x: nat)
    requires WellFounded(parent) && x in parent
    ensures WellFounded(Halved(parent, x))
  {
    var after := Halved(parent, x);
    forall y | y in after
      ensures Up(after, y) in after && Up(after, y) <= y
    {
      assert Up(parent, y) <= y && Up(parent, Up(parent, y)) <= Up(parent, y);
    }
  }

  /** Pointing a key at its grandparent changes no root. */
  lemma {:induction false} HalvingKeepsRoot(parent: Parents, x: nat, y: nat)
    requires WellFounded(parent) && x in parent && y in parent && WellFounded(Halved(parent, x))
    ensures Root(Halved(parent, x), y) == Root(parent, y)
    decreases y
  {
    var after := Halved(parent, x);
    var up := Up(parent, y);
    if y == x {
      var grand := Up(parent, up);
      assert Up(after, y) == grand && grand <= up <= y;
      if grand == y {
      } else {
        HalvingKeepsRoot(parent, x, grand);
        assert Root(parent, y) == Root(parent, up) == Root(parent, grand);
      }
    } else {
      assert Up(after, y) == up;
      if up != y {
        HalvingKeepsRoot(parent, x, up);
      }
    }
  }

  /** Pointing the larger of two roots at the smaller one redirects exactly the keys below it. */
  lemma {:induction false} UnionRedirects(parent: Parents, high: nat, low: nat, y: nat)
    requires WellFounded(parent) && high in parent && low in parent && y in parent && WellFounded(parent[high := low])
    requires Up(parent, high) == high && Up(parent, low) == low && low <= high
    ensures Root(parent[high := low], y) == if Root(parent, y) == high then low else Root(parent, y)
    decreases y
  {
    var after := parent[high := low];
    assert Up(after, low) == low;
    if y == high {
      assert Up(after, y) == low;
    } else {
      assert Up(after, y) == Up(parent, y);
      if Up(parent, y) != y {
        UnionRedirects(parent, high, low, Up(parent, y));
      }
    }
  }

  lemma JoinedWellFounded(parent: Parents, high: nat, low: nat)
    requires WellFounded(parent) && high in parent && low in parent && low <= high
    ensures WellFounded(parent[high := low])
  {
    var after := parent[high := low];
    forall y | y in after
      ensures Up(after, y) in after && Up(after, y) <= y
    {
      assert Up(parent, y) <= y;
    }
  }

  lemma NewKeyWellFounded(parent: Parents, x: nat)
    requires WellFounded(parent) && x !in parent
    ensures WellFounded(parent[x := x])
  {
    var after := parent[x := x];
    forall y | y in after
      ensures Up(after, y) in after && Up(after, y) <= y
    {
      assert y != x ==> Up(parent, y) <= y;
    }
  }

  lemma {:induction false} NewKeyKeepsRoot(parent: Parents, x: nat, y: nat)
    requires WellFounded(parent) && x !in parent && y in parent && WellFounded(parent[x := x])
    ensures Root(parent[x := x], y) == Root(parent, y)
    decreases y
  {
    assert Up(parent[x := x], y) == Up(parent, y);
    if Up(parent, y) != y {
      NewKeyKeepsRoot(parent, x, Up(parent, y));
    }
  }

  /** The table answers connectivity for these edges: linked keys share a root, and every key is connected to its own. */
  ghost predicate Represents(parent: Parents, edges: Edges) {
    && WellFounded(parent)
    && (forall e :: e in edges ==> e.0 in parent && e.1 in parent && Root(parent, e.0) == Root(parent, e.1))
    && (forall x {:trigger Root(parent, x)} :: x in parent ==> Connected(edges, x, Root(parent, x)))
  }

  /** Along any chain from a known key the root never changes. */
  lemma {:induction false} ChainSharesRoot(parent: Parents, edges: Edges, path: seq<nat>, n: nat)
    requires Represents(parent, edges) && IsChain(edges, path) && n < |path| && path[0] in parent
    ensures path[n] in parent && Root(parent, path[n]) == Root(parent, path[0])
  {
    if n > 0 {
      ChainSharesRoot(parent, edges, path, n - 1);
      assert Linked(edges, path[n - 1], path[n - 1 + 1]);
    }
  }

  /** Same root exactly when connected, and the root is the group. */
  lemma RootIsGroup(parent: Parents, edges: Edges, x: nat)
    requires Represents(parent, edges) && x in parent
    ensures IsGroup(edges, x, Root(parent, x))
  {
    forall y | Connected(edges, x, y)
      ensures Root(parent, x) <= y
    {
      var path :| Joins(edges, path, x, y);
      ChainSharesRoot(parent, edges, path, |path| - 1);
    }
  }

  lemma AddKey(parent: Parents, edges: Edges, x: nat)
    requires Represents(parent, edges) && x !in parent
    ensures Represents(parent[x := x], edges)
  {
    var after := parent[x := x];
    NewKeyWellFounded(parent, x);
    ConnectedSelf(edges, x);
    assert Up(after, x) == x && Root(after, x) == x;
    forall y | y in parent
      ensures Root(after, y) == Root(parent, y)
    {
      NewKeyKeepsRoot(parent, x, y);
    }
    hide WellFounded, Connected;
  }

  /** The table after joining two roots. */
  function Joined(parent: Parents, ra: nat, rb: nat): Parents {
    parent[if ra >= rb then ra else rb := if ra <= rb then ra else rb]
  }

  /** Every root equal to `high` becomes `low`; no other root changes. */
  ghost predicate Redirected(parent: Parents, after: Parents, high: nat, low: nat)
    requires WellFounded(parent)
  {
    && WellFounded(after) && after.Keys == parent.Keys
    && forall y {:trigger Root(after, y)} :: y in parent ==> Root(after, y) == if Root(parent, y) == high then low else Root(parent, y)
  }

  lemma JoinedRedirects(parent: Parents, a: nat, b: nat)
    requires WellFounded(parent) && a in parent && b in parent
    ensures var ra, rb := Root(parent, a), Root(parent, b);
      Redirected(parent, Joined(parent, ra, rb), if ra >= rb then ra else rb, if ra <= rb then ra else rb)
  {
    hide WellFounded, Root;
    var ra, rb := Root(parent, a), Root(parent, b);
    var high, low := if ra >= rb then ra else rb, if ra <= rb then ra else rb;
    JoinedWellFounded(parent, high, low);
    var after := Joined(parent, ra, rb);
    forall y {:trigger Root(after, y)} | y in parent
      ensures Root(after, y) == if Root(parent, y) == high then low else Root(parent, y)
    {
      UnionRedirects(parent, high, low, y);
    }
  }

  lemma AddEdge(parent: Parents, edges: Edges, a: nat, b: nat)
    requires Represents(parent, edges) && a in parent && b in parent
    ensures Represents(Joined(parent, Root(parent, a), Root(parent, b)), edges + {(a, b)})
  {
    hide WellFounded, Connected, Root, Joined;
    JoinedRedirects(parent, a, b);
    RootsConnect(parent, edges, a, b);
    var ra, rb := Root(parent, a), Root(parent, b);
    RedirectedConnects(parent, Joined(parent, ra, rb), edges, edges + {(a, b)}, if ra >= rb then ra else rb, if ra <= rb then ra else rb);
  }

  lemma RedirectedConnects(parent: Parents, after: Parents, edges: Edges, more: Edges, high: nat, low: nat)
    requires Represents(parent, edges) && edges <= more && Connected(more, high, low)
    requires Redirected(parent, after, high, low)
    ensures forall y {:trigger Root(after, y)} :: y in parent ==> Connected(more, y, Root(after, y))
  {
    hide WellFounded, Connected, Root;
    forall y | y in parent
      ensures Connected(more, y, Root(after, y))
    {
      ConnectedMore(edges, more, y, Root(parent, y));
      if Root(parent, y) == high {
        ConnectedOn(more, y, high, low);
      }
    }
  }

  /** The new pair connects the two old roots, in both directions. */
  lemma RootsConnect(parent: Parents, edges: Edges, a: nat, b: nat)
    requires Represents(parent, edges) && a in parent && b in parent
    ensures var more := edges + {(a, b)};
      Connected(more, Root(parent, a), Root(parent, b)) && Connected(more, Root(parent, b), Root(parent, a))
  {
    hide WellFounded, Connected, Root;
    var more := edges + {(a, b)};
    var ra, rb := Root(parent, a), Root(parent, b);
    ConnectedMore(edges, more, a, ra);
    ConnectedMore(edges, more, b, rb);
    ConnectedBack(more, a, ra);
    ConnectedLink(more, a, b);
    ConnectedOn(more, ra, a, b);
    ConnectedOn(more, ra, b, rb);
    ConnectedBack(more, ra, rb);
  }

  class UnionFind {
    var parent: Parents

    constructor ()
      ensures parent == map[]
    {
      parent := map[];
    }

    /** `find`: an unknown key becomes its own root; the path walked is halved. */
    method Find(start: nat) returns (root: nat)
      requires WellFounded(parent)
      modifies this
      ensures WellFounded(WithKey(old(parent), start)) && SameRoots(WithKey(old(parent), start), parent)
      ensures start in parent && root == Root(parent, start)
    {
      var x := start;
      if x !in parent {
        NewKeyWellFounded(parent, x);
        parent := parent[x := x];
      }
      ghost var before := parent;
      while Up(parent, x) != x
        invariant WellFounded(before) && SameRoots(before, parent) && x in parent && start in parent
        invariant Root(parent, x) == Root(parent, start)
        decreases x
      {
        HalvedStep(before, parent, x);
        parent := Halved(parent, x);
        x := Up(parent, x);
      }
      root := x;
    }

    /** The union of one pair: the smaller root becomes the parent of the larger. */
    method Union(a: nat, b: nat, ghost edges: Edges)
      requires Represents(parent, edges)
      modifies this
      ensures Represents(parent, edges + {(a, b)})
    {
      hide WellFounded, Connected, Root;
      var ra := Find(a);
      FindKeepsMeaning(old(parent), parent, edges, a);
      ghost var middle := parent;
      var rb := Find(b);
      FindKeepsMeaning(middle, parent, edges, b);
      StillRoot(middle, parent, a, b);
      AddEdge(parent, edges, a, b);
      parent := Joined(parent, ra, rb);
    }
  }

  function WithKey(parent: Parents, x: nat): Parents {
    if x in parent then parent else parent[x := x]
  }

  /** A halving step keeps all roots, strictly shortens the walk, and continues below the same root. */
  lemma HalvedStep(before: Parents, parent: Parents, x: nat)
    requires WellFounded(before) && SameRoots(before, parent) && x in parent && Up(parent, x) != x
    ensures var after := Halved(parent, x);
      && SameRoots(before, after) && Up(after, x) in after && Up(after, x) < x
      && Root(after, Up(after, x)) == Root(after, x) && Root(after, x) == Root(parent, x)
  {
    var after := Halved(parent, x);
    HalvedWellFounded(parent, x);
    forall y | y in parent
      ensures Root(after, y) == Root(parent, y)
    {
      HalvingKeepsRoot(parent, x, y);
    }
    assert Up(parent, Up(parent, x)) <= Up(parent, x) < x;
  }

  lemma FindKeepsMeaning(before: Parents, after: Parents, edges: Edges, x: nat)
    requires Represents(before, edges)
    requires WellFounded(WithKey(before, x)) && SameRoots(WithKey(before, x), after)
    ensures Represents(after, edges)
  {
    hide WellFounded, Connected, Root;
    if x !in before {
      AddKey(before, edges, x);
    }
  }

  /** A second find leaves the first key's root where it was. */
  lemma StillRoot(before: Parents, after: Parents, a: nat, b: nat)
    requires WellFounded(before) && a in before
    requires WellFounded(WithKey(before, b)) && SameRoots(WithKey(before, b), after)
    ensures a in after && Root(after, a) == Root(before, a)
  {
    if b !in before {
      NewKeyKeepsRoot(before, b, a);
    }
  }

  function Text(pair: Pair, second: bool): string {
    if second then pair.queryB else pair.queryA
  }

  predicate Sourced(pair: Pair) {
    pair.source.Some? && !Blank(pair.source.value)
  }

  /** Row n of the converted stream: pair n/2, first query then second, labelled with its component. */
  ghost predicate RowFor(key: TextKey, pairs: seq<Pair>, row: Request, n: nat)
    requires n < 2 * |pairs|
  {
    var pair := pairs[n / 2];
    && Sourced(pair)
    && row == Request(n / 2, if n % 2 == 0 then 'a' else 'b', Text(pair, n % 2 == 1), pair.source.value, row.group, pair.pairLabel)
    && IsGroup(EdgesOf(key, pairs), key(row.text), row.group)
  }

  /** `convert_pairs`: rows in pair order, grouped by the component of their text under the pairs. */
  method ConvertPairs(key: TextKey, pairs: seq<Pair>) returns (r: Result<seq<Request>, Refusal>)
    ensures r == Err(BlankText) <==> exists i :: 0 <= i < |pairs| && (Blank(pairs[i].queryA) || Blank(pairs[i].queryB))
    ensures r == Err(MissingSource) <==>
      && (forall i :: 0 <= i < |pairs| ==> !Blank(pairs[i].queryA) && !Blank(pairs[i].queryB))
      && exists i :: 0 <= i < |pairs| && !Sourced(pairs[i])
    ensures r.Ok? ==> |r.value| == 2 * |pairs| && forall n :: 0 <= n < |r.value| ==> RowFor(key, pairs, r.value[n], n)
  {
    hide RowFor, Represents, IsGroup;
    var table := new UnionFind();
    EmptyTable(key, pairs[..0]);
    for i := 0 to |pairs|
      invariant Represents(table.parent, EdgesOf(key, pairs[..i]))
      invariant forall k :: 0 <= k < i ==> !Blank(pairs[k].queryA) && !Blank(pairs[k].queryB)
    {
      if Blank(pairs[i].queryA) || Blank(pairs[i].queryB) {
        return Err(BlankText);
      }
      MoreEdges(key, pairs, i);
      table.Union(key(pairs[i].queryA), key(pairs[i].queryB), EdgesOf(key, pairs[..i]));
    }
    ghost var edges := EdgesOf(key, pairs);
    assert pairs[..|pairs|] == pairs;
    var rows: seq<Request> := [];
    for i := 0 to |pairs|
      invariant Represents(table.parent, edges)
      invariant forall k :: 0 <= k < i ==> Sourced(pairs[k])
      invariant |rows| == 2 * i && forall n :: 0 <= n < |rows| ==> RowFor(key, pairs, rows[n], n)
    {
      if pairs[i].source.None? || Blank(pairs[i].source.value) {
        assert !Sourced(pairs[i]);
        return Err(MissingSource);
      }
      var a := GroupOf(table, key(pairs[i].queryA), edges);
      var b := GroupOf(table, key(pairs[i].queryB), edges);
      PairRows(key, pairs, i, a, b);
      rows := rows + [Request(i, 'a', pairs[i].queryA, pairs[i].source.value, a, pairs[i].pairLabel),
                      Request(i, 'b', pairs[i].queryB, pairs[i].source.value, b, pairs[i].pairLabel)];
    }
    return Ok(rows);
  }

  lemma EmptyTable(key: TextKey, pairs: seq<Pair>)
    requires pairs == []
    ensures Represents(map[], EdgesOf(key, pairs))
  {
  }

  lemma PairRows(key: TextKey, pairs: seq<Pair>, i: nat, a: nat, b: nat)
    requires i < |pairs| && Sourced(pairs[i])
    requires IsGroup(EdgesOf(key, pairs), key(pairs[i].queryA), a) && IsGroup(EdgesOf(key, pairs), key(pairs[i].queryB), b)
    ensures RowFor(key, pairs, Request(i, 'a', pairs[i].queryA, pairs[i].source.value, a, pairs[i].pairLabel), 2 * i)
    ensures RowFor(key, pairs, Request(i, 'b', pairs[i].queryB, pairs[i].source.value, b, pairs[i].pairLabel), 2 * i + 1)
  {
    hide IsGroup;
  }

  lemma MoreEdges(key: TextKey, pairs: seq<Pair>, i: nat)
    requires i < |pairs|
    ensures EdgesOf(key, pairs[..i + 1]) == EdgesOf(key, pairs[..i]) + {(key(pairs[i].queryA), key(pairs[i].queryB))}
  {
    assert pairs[..i + 1] == pairs[..i] + [pairs[i]];
  }

  method GroupOf(table: UnionFind, x: nat, ghost edges: Edges) returns (g: nat)
    requires Represents(table.parent, edges)
    modifies table
    ensures Represents(table.parent, edges) && IsGroup(edges, x, g)
  {
    hide WellFounded, Connected, Root, IsGroup;
    g := table.Find(x);
    FindKeepsMeaning(old(table.parent), table.parent, edges, x);
    RootIsGroup(table.parent, edges, x);
  }

  /** Two texts share a group exactly when a chain of pairs connects them. */
  lemma SameGroupIffConnected(edges: Edges, x: nat, g: nat, y: nat, h: nat)
    requires IsGroup(edges, x, g) && IsGroup(edges, y, h)
    ensures g == h <==> Connected(edges, x, y)
  {
    if g == h {
      ConnectedBack(edges, y, h);
      ConnectedOn(edges, x, g, y);
    }
    if Connected(edges, x, y) {
      ConnectedBack(edges, x, y);
      ConnectedOn(edges, x, y, h);
      ConnectedOn(edges, y, x, g);
    }
  }

  /** The order and repetition of pairs does not matter: the same pairs give every text the same group. */
  lemma GroupsIgnoreOrder(key: TextKey, a: seq<Pair>, b: seq<Pair>, x: nat, g: nat, h: nat)
    requires forall p :: p in a <==> p in b
    requires IsGroup(EdgesOf(key, a), x, g) && IsGroup(EdgesOf(key, b), x, h)
    ensures g == h
  {
    assert EdgesOf(key, a) == EdgesOf(key, b);
  }
}
