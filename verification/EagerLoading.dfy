/** The generated edge loaders: collect keys, run one query, scatter the rows. */
module EagerLoading {
  import opened Prelude

  type Key = string

  /** Every edge of the modelled entities. */
  datatype Edge =
    | SenderProfile | ProviderProfile | PaymentOrders    // of an API key
    | Providers | ProvisionBuckets | Institutions        // of a fiat currency

  datatype Error =
    | QueryFailed
    | UnexpectedForeignKey(key: Key)
    | NilForeignKey(row: Key)
    | NotFound(edge: Edge)
    | NotLoaded(edge: Edge)

  /** The "one" side of an edge. Many nodes may share one parent object. */
  class Parent {
    const id: Key

    constructor (id: Key)
      ensures this.id == id
    {
      this.id := id;
    }
  }

  /** A row of the "many" side, with its foreign key to the node. */
  datatype Child = Child(id: Key, fk: Option<Key>)

  /** An entity whose edges are being loaded. A nil edge pointer and a nil slice are
      absent map keys, and `fks` holds the non-null foreign keys that were scanned. */
  class Node {
    const id: Key
    const fks: map<Edge, Key>
    const loaded: set<Edge>
    var parents: map<Edge, Parent>
    var children: map<Edge, seq<Child>>

    constructor (id: Key, fks: map<Edge, Key>, loaded: set<Edge>)
      ensures this.id == id && this.fks == fks && this.loaded == loaded
      ensures parents == map[] && children == map[]
    {
      this.id, this.fks, this.loaded := id, fks, loaded;
      parents, children := map[], map[];
    }

    /** `SenderProfileOrErr` and its like. */
    function ParentOrErr(e: Edge): Result<Parent, Error>
      reads this
    {
      if e in parents then Ok(parents[e])
      else if e in loaded then Err(NotFound(e))
      else Err(NotLoaded(e))
    }

    /** `PaymentOrdersOrErr` and its like. */
    function ChildrenOrErr(e: Edge): Result<seq<Child>, Error>
      reads this
    {
      if e in loaded then Ok(if e in children then children[e] else []) else Err(NotLoaded(e))
    }
  }

  ghost function Objects(nodes: seq<Node>): set<Node> {
    set n | n in nodes
  }

  // ---- Many to one ----------------------------------------------------------------

  /** The distinct non-null foreign keys of the nodes, in order of first occurrence. */
  function ForeignKeys(nodes: seq<Node>, e: Edge): seq<Key> {
    if nodes == [] then []
    else
      var n := nodes[|nodes| - 1];
      var ids := ForeignKeys(nodes[..|nodes| - 1], e);
      if e in n.fks && n.fks[e] !in ids then ids + [n.fks[e]] else ids
  }

  /** The query is asked for every non-null foreign key, and for each only once. */
  lemma {:induction false} ForeignKeysAreDistinct(nodes: seq<Node>, e: Edge)
    ensures var ids := ForeignKeys(nodes, e);
            && (forall n <- nodes :: e in n.fks ==> n.fks[e] in ids)
            && (forall id <- ids :: exists n :: n in nodes && HasKey(n, e, id))
            && (forall i, j :: 0 <= i < j < |ids| ==> ids[i] != ids[j])
  {
    if nodes != [] {
      var front, n := nodes[..|nodes| - 1], nodes[|nodes| - 1];
      ForeignKeysAreDistinct(front, e);
      assert nodes == front + [n];
    }
    forall id <- ForeignKeys(nodes, e) ensures exists n :: n in nodes && HasKey(n, e, id) {
      var n := NodeWithKey(nodes, e, id);
    }
  }

  lemma {:induction false} NodeWithKey(nodes: seq<Node>, e: Edge, id: Key) returns (n: Node)
    requires id in ForeignKeys(nodes, e)
    ensures n in nodes && HasKey(n, e, id)
  {
    n := nodes[|nodes| - 1];
    if !HasKey(n, e, id) {
      n := NodeWithKey(nodes[..|nodes| - 1], e, id);
    }
  }

  /** The first position from `k` on whose row carries a key that was not asked for. */
  function ExpectedFrom(ids: seq<Key>, rows: seq<Parent>, k: nat): (n: nat)
    requires k <= |rows|
    ensures k <= n <= |rows|
    ensures forall i :: k <= i < n ==> rows[i].id in ids
    ensures n < |rows| ==> rows[n].id !in ids
    decreases |rows| - k
  {
    if k == |rows| || rows[k].id !in ids then k else ExpectedFrom(ids, rows, k + 1)
  }

  /** How many leading rows carry one of the keys that were asked for. */
  function Expected(ids: seq<Key>, rows: seq<Parent>): (n: nat)
    ensures n <= |rows|
  {
    ExpectedFrom(ids, rows, 0)
  }

  /** The last of the rows with this id. */
  function LastWithId(rows: seq<Parent>, id: Key): (p: Option<Parent>)
    ensures p.Some? ==> p.value in rows && p.value.id == id
    ensures p.None? ==> forall r :: r in rows ==> r.id != id
  {
    if rows == [] then None
    else if rows[|rows| - 1].id == id then Some(rows[|rows| - 1])
    else LastWithId(rows[..|rows| - 1], id)
  }

  /** The edge of a node once the given rows have been scattered. */
  function Assigned(rows: seq<Parent>, n: Node, e: Edge, before: map<Edge, Parent>): map<Edge, Parent> {
    var p := if e in n.fks then LastWithId(rows, n.fks[e]) else None;
    if p.Some? then before[e := p.value] else before
  }

  /** `loadSenderProfile`, `loadProviderProfile`, `loadCard`. */
  method LoadParents(nodes: seq<Node>, e: Edge, query: seq<Key> -> Result<seq<Parent>, Error>)
    returns (err: Option<Error>)
    modifies Objects(nodes)`parents
    ensures var ids := ForeignKeys(nodes, e);
            if ids == [] then err == None && forall n <- nodes :: n.parents == old(n.parents)
            else match query(ids)
              case Err(x) => err == Some(x) && forall n <- nodes :: n.parents == old(n.parents)
              case Ok(rows) =>
                var k := Expected(ids, rows);
                && err == (if k == |rows| then None else Some(UnexpectedForeignKey(rows[k].id)))
                && forall n <- nodes :: n.parents == Assigned(rows[..k], n, e, old(n.parents))
  {
    var ids, nodeids := GroupByKey(nodes, e);
    if ids == [] {
      return None;
    }
    var neighbors := query(ids);
    if neighbors.Err? {
      return Some(neighbors.error);
    }
    ghost var before := map n: Node | n in nodes :: n.parents;
    IndexTargets(nodes, e, nodeids);
    err := ScatterParents(nodes, e, ids, nodeids, neighbors.value, before);
  }

  predicate HasKey(n: Node, e: Edge, id: Key) {
    e in n.fks && n.fks[e] == id
  }

  /** The nodes whose foreign key is `id`, in order. */
  function WithKey(nodes: seq<Node>, e: Edge, id: Key): seq<Node> {
    if nodes == [] then []
    else
      var n := nodes[|nodes| - 1];
      WithKey(nodes[..|nodes| - 1], e, id) + if HasKey(n, e, id) then [n] else []
  }

  lemma {:induction false} WithKeyMembers(nodes: seq<Node>, e: Edge, id: Key)
    ensures forall n <- WithKey(nodes, e, id) :: n in nodes && HasKey(n, e, id)
    ensures forall n <- nodes :: HasKey(n, e, id) ==> n in WithKey(nodes, e, id)
  {
    if nodes != [] {
      var front := nodes[..|nodes| - 1];
      assert nodes == front + [nodes[|nodes| - 1]];
      WithKeyMembers(front, e, id);
    }
  }

  /** What one more node does to the keys and to the index. */
  lemma OneMoreNode(nodes: seq<Node>, n: Node, e: Edge, id: Key)
    ensures WithKey(nodes + [n], e, id) == WithKey(nodes, e, id) + if HasKey(n, e, id) then [n] else []
    ensures ForeignKeys(nodes + [n], e)
         == ForeignKeys(nodes, e) + if e in n.fks && n.fks[e] !in ForeignKeys(nodes, e) then [n.fks[e]] else []
    ensures id !in ForeignKeys(nodes, e) ==> WithKey(nodes, e, id) == []
  {
    assert (nodes + [n])[..|nodes|] == nodes;
    WithKeyMembers(nodes, e, id);
    ForeignKeysAreDistinct(nodes, e);
    if WithKey(nodes, e, id) != [] {
      assert WithKey(nodes, e, id)[0] in nodes;
    }
  }

  ghost predicate Indexed(nodes: seq<Node>, e: Edge, nodeids: map<Key, seq<Node>>) {
    && (forall id :: id in nodeids <==> id in ForeignKeys(nodes, e))
    && (forall id :: id in nodeids ==> nodeids[id] == WithKey(nodes, e, id))
  }

  /** The index after one more node. */
  function Indexing(n: Node, e: Edge, nodeids: map<Key, seq<Node>>): map<Key, seq<Node>> {
    if e !in n.fks then nodeids
    else
      var fk := n.fks[e];
      nodeids[fk := (if fk in nodeids then nodeids[fk] else []) + [n]]
  }

  lemma IndexStep(nodes: seq<Node>, n: Node, e: Edge, nodeids: map<Key, seq<Node>>)
    requires Indexed(nodes, e, nodeids)
    ensures Indexed(nodes + [n], e, Indexing(n, e, nodeids))
  {
    var nodes', after := nodes + [n], Indexing(n, e, nodeids);
    forall id: Key
      ensures id in after <==> id in ForeignKeys(nodes', e)
      ensures id in after ==> after[id] == WithKey(nodes', e, id)
    {
      OneMoreNode(nodes, n, e, id);
    }
  }

  /** The first loop: the query's keys and the index from key to nodes. */
  method GroupByKey(nodes: seq<Node>, e: Edge) returns (ids: seq<Key>, nodeids: map<Key, seq<Node>>)
    ensures ids == ForeignKeys(nodes, e) && Indexed(nodes, e, nodeids)
  {
    ids, nodeids := [], map[];
    var i := 0;
    while i < |nodes|
      invariant 0 <= i <= |nodes|
      invariant ids == ForeignKeys(nodes[..i], e) && Indexed(nodes[..i], e, nodeids)
    {
      var n := nodes[i];
      assert nodes[..i + 1] == nodes[..i] + [n];
      IndexStep(nodes[..i], n, e, nodeids);
      OneMoreNode(nodes[..i], n, e, "");
      if e in n.fks {
        var fk := n.fks[e];
        if fk !in nodeids {
          ids := ids + [fk];
        }
        nodeids := nodeids[fk := (if fk in nodeids then nodeids[fk] else []) + [n]];
      }
      i := i + 1;
    }
    assert nodes[..|nodes|] == nodes;
  }

  /** `targets` are the nodes whose foreign key is `id`. */
  ghost predicate Targets(nodes: seq<Node>, e: Edge, id: Key, targets: seq<Node>) {
    && (forall n <- targets :: n in nodes && HasKey(n, e, id))
    && (forall n <- nodes :: HasKey(n, e, id) ==> n in targets)
  }

  ghost predicate Targeted(nodes: seq<Node>, e: Edge, nodeids: map<Key, seq<Node>>) {
    forall id :: id in nodeids ==> Targets(nodes, e, id, nodeids[id])
  }

  lemma IndexTargets(nodes: seq<Node>, e: Edge, nodeids: map<Key, seq<Node>>)
    requires Indexed(nodes, e, nodeids)
    ensures Targeted(nodes, e, nodeids)
  {
    forall id | id in nodeids ensures Targets(nodes, e, id, nodeids[id]) {
      WithKeyMembers(nodes, e, id);
    }
  }

  /** Every node's edge is what the given rows make of it. */
  ghost predicate Scattered(nodes: seq<Node>, e: Edge, rows: seq<Parent>, before: map<Node, map<Edge, Parent>>)
    reads Objects(nodes)
  {
    forall n <- nodes :: n in before && n.parents == Assigned(rows, n, e, before[n])
  }

  /** The second loop: every row goes to all nodes that asked for it. */
  method ScatterParents(nodes: seq<Node>, e: Edge, ids: seq<Key>, nodeids: map<Key, seq<Node>>, rows: seq<Parent>,
                        ghost before: map<Node, map<Edge, Parent>>)
    returns (err: Option<Error>)
    requires (forall id :: id in nodeids <==> id in ids) && Targeted(nodes, e, nodeids)
    requires Scattered(nodes, e, [], before)
    modifies Objects(nodes)`parents
    ensures var k := Expected(ids, rows);
            && err == (if k == |rows| then None else Some(UnexpectedForeignKey(rows[k].id)))
            && Scattered(nodes, e, rows[..k], before)
  {
    var k := 0;
    while k < |rows|
      invariant 0 <= k <= |rows| && Expected(ids, rows) == ExpectedFrom(ids, rows, k)
      invariant Scattered(nodes, e, rows[..k], before)
    {
      var row := rows[k];
      if row.id !in nodeids {
        return Some(UnexpectedForeignKey(row.id));
      }
      AssignRow(nodes, nodeids[row.id], e, rows[..k], row, before);
      assert rows[..k + 1] == rows[..k] + [row];
      k := k + 1;
    }
    assert rows[..k] == rows;
    return None;
  }

  /** One turn of the second loop. */
  method AssignRow(nodes: seq<Node>, targets: seq<Node>, e: Edge, ghost done: seq<Parent>, row: Parent,
                   ghost before: map<Node, map<Edge, Parent>>)
    requires Targets(nodes, e, row.id, targets)
    requires Scattered(nodes, e, done, before)
    modifies Objects(nodes)`parents
    ensures Scattered(nodes, e, done + [row], before)
  {
    AssignAll(targets, e, row);
    forall n <- nodes ensures n.parents == Assigned(done + [row], n, e, before[n]) {
      AssignedStep(done, row, n, e, before[n]);
    }
  }

  lemma AssignedStep(rows: seq<Parent>, row: Parent, n: Node, e: Edge, before: map<Edge, Parent>)
    ensures Assigned(rows + [row], n, e, before)
         == if HasKey(n, e, row.id) then Assigned(rows, n, e, before)[e := row] else Assigned(rows, n, e, before)
  {
  }

  /** `for i := range nodes { assign(nodes[i], n) }`. */
  method AssignAll(nodes: seq<Node>, e: Edge, row: Parent)
    modifies Objects(nodes)`parents
    ensures forall n <- nodes :: n.parents == old(n.parents)[e := row]
  {
    var i := 0;
    while i < |nodes|
      invariant 0 <= i <= |nodes|
      invariant forall n <- nodes :: n.parents == if n in nodes[..i] then old(n.parents)[e := row] else old(n.parents)
    {
      assert nodes[..i + 1] == nodes[..i] + [nodes[i]];
      nodes[i].parents := nodes[i].parents[e := row];
      i := i + 1;
    }
  }

  // ---- The batched load against one lookup per node -----------------------------------

  /** A table has one row per id. */
  ghost predicate Keyed(table: seq<Parent>) {
    forall p <- table, q <- table :: p.id == q.id ==> p == q
  }

  /** `rows` is what an `id IN ids` query with a filter returns, in some order. */
  ghost predicate Honest(table: seq<Parent>, keep: Parent -> bool, ids: seq<Key>, rows: seq<Parent>) {
    && (forall r <- rows :: r in table && keep(r) && r.id in ids)
    && (forall p <- table :: keep(p) && p.id in ids ==> p in rows)
  }

  /** The query answers every key list honestly. */
  ghost predicate HonestQuery(table: seq<Parent>, keep: Parent -> bool, query: seq<Key> -> Result<seq<Parent>, Error>) {
    Keyed(table) && forall ids :: query(ids).Ok? && Honest(table, keep, ids, query(ids).value)
  }

  /** A separate lookup of one foreign key. */
  function Lookup(table: seq<Parent>, keep: Parent -> bool, id: Key): (p: Option<Parent>)
    ensures p.Some? ==> p.value in table && p.value.id == id && keep(p.value)
    ensures p.None? ==> forall r <- table :: r.id == id ==> !keep(r)
  {
    if table == [] then None
    else if table[0].id == id && keep(table[0]) then Some(table[0])
    else Lookup(table[1..], keep, id)
  }

  /** What a node's edge holds after looking up its own key alone. */
  function LookedUp(table: seq<Parent>, keep: Parent -> bool, n: Node, e: Edge, before: map<Edge, Parent>)
    : map<Edge, Parent>
  {
    var p := if e in n.fks then Lookup(table, keep, n.fks[e]) else None;
    if p.Some? then before[e := p.value] else before
  }

  /** For an honest query the error is unreachable, and every node gets exactly what a
      lookup of its own key gives, however many nodes share the row. */
  lemma BatchIsLookup(nodes: seq<Node>, e: Edge, table: seq<Parent>, keep: Parent -> bool, rows: seq<Parent>)
    requires Keyed(table) && Honest(table, keep, ForeignKeys(nodes, e), rows)
    ensures Expected(ForeignKeys(nodes, e), rows) == |rows|
    ensures forall n <- nodes, before :: Assigned(rows, n, e, before) == LookedUp(table, keep, n, e, before)
  {
    ForeignKeysAreDistinct(nodes, e);
    assert forall i :: 0 <= i < |rows| ==> rows[i] in rows;
    forall n <- nodes, before ensures Assigned(rows, n, e, before) == LookedUp(table, keep, n, e, before) {
      if e in n.fks {
        var p, q := LastWithId(rows, n.fks[e]), Lookup(table, keep, n.fks[e]);
        assert p.Some? ==> p.value in table && keep(p.value);
        assert q.Some? ==> q.value in rows;
      }
    }
  }

  // ---- One to many --------------------------------------------------------------------

  function Ids(nodes: seq<Node>): (ids: seq<Key>)
    ensures |ids| == |nodes| && forall i :: 0 <= i < |ids| ==> ids[i] == nodes[i].id
  {
    seq(|nodes|, i requires 0 <= i < |nodes| => nodes[i].id)
  }

  /** The last node with this id: the one the index keeps. */
  function LastNode(nodes: seq<Node>, id: Key): Option<Node> {
    if nodes == [] then None
    else
      var n := nodes[|nodes| - 1];
      if n.id == id then Some(n) else LastNode(nodes[..|nodes| - 1], id)
  }

  /** The rows that belong to this id, in query order. */
  function RowsFor(rows: seq<Child>, id: Key): seq<Child> {
    if rows == [] then []
    else
      var r := rows[|rows| - 1];
      RowsFor(rows[..|rows| - 1], id) + if r.fk == Some(id) then [r] else []
  }

  /** The first position from `k` on whose row has no key, or one of no node. */
  function OwnedFrom(ids: seq<Key>, rows: seq<Child>, k: nat): (n: nat)
    requires k <= |rows|
    ensures k <= n <= |rows|
    ensures forall i :: k <= i < n ==> rows[i].fk.Some? && rows[i].fk.value in ids
    ensures n < |rows| ==> rows[n].fk.None? || rows[n].fk.value !in ids
    decreases |rows| - k
  {
    if k == |rows| || rows[k].fk.None? || rows[k].fk.value !in ids then k else OwnedFrom(ids, rows, k + 1)
  }

  function Owned(ids: seq<Key>, rows: seq<Child>): (n: nat)
    ensures n <= |rows|
  {
    OwnedFrom(ids, rows, 0)
  }

  function RowError(row: Child): Error {
    if row.fk.None? then NilForeignKey(row.id) else UnexpectedForeignKey(row.fk.value)
  }

  /** A row without a key is reported by its id, a row of no node by its key. */
  lemma RowErrors(id: Key, key: Key)
    ensures RowError(Child(id, None)) == NilForeignKey(id)
    ensures RowError(Child(id, Some(key))) == UnexpectedForeignKey(key)
  {
  }

  /** One row more: it joins the end of the list of its node, and no other list. */
  lemma RowsOfOne(rows: seq<Child>, r: Child, id: Key)
    ensures RowsFor([], id) == [] && RowsFor(rows + [r], id) == RowsFor(rows, id) + if r.fk == Some(id) then [r] else []
  {
    assert (rows + [r])[..|rows|] == rows;
  }

  /** One node more: it takes over its id. */
  lemma LastOfOne(nodes: seq<Node>, n: Node, id: Key)
    ensures LastNode([], id) == None
    ensures LastNode(nodes + [n], id) == if n.id == id then Some(n) else LastNode(nodes, id)
  {
    assert (nodes + [n])[..|nodes|] == nodes;
  }

  /** The list of a node once the given rows have been scattered. */
  function Collected(nodes: seq<Node>, rows: seq<Child>, n: Node): seq<Child> {
    if LastNode(nodes, n.id) == Some(n) then RowsFor(rows, n.id) else []
  }

  /** `loadPaymentOrders`, `loadProviders`, `loadProvisionBuckets`, `loadInstitutions`. */
  method LoadChildren(nodes: seq<Node>, e: Edge, query: seq<Key> -> Result<seq<Child>, Error>)
    returns (err: Option<Error>)
    modifies Objects(nodes)`children
    ensures match query(Ids(nodes))
      case Err(x) => err == Some(x) && forall n <- nodes :: n.children == old(n.children)[e := []]
      case Ok(rows) =>
        var k := Owned(Ids(nodes), rows);
        && err == (if k == |rows| then None else Some(RowError(rows[k])))
        && forall n <- nodes :: n.children == old(n.children)[e := Collected(nodes, rows[..k], n)]
  {
    var fks, nodeids := IndexById(nodes, e);
    var neighbors := query(fks);
    if neighbors.Err? {
      return Some(neighbors.error);
    }
    assert forall n <- nodes :: n.children == old(n.children)[e := Collected(nodes, [], n)];
    ghost var before := map n: Node | n in nodes :: old(n.children);
    err := ScatterChildren(nodes, e, nodeids, neighbors.value, before);
  }

  ghost predicate IndexedById(nodes: seq<Node>, nodeids: map<Key, Node>) {
    forall id :: if id in nodeids then LastNode(nodes, id) == Some(nodeids[id]) else LastNode(nodes, id) == None
  }

  /** The second loop: every row is appended to the list of the node it refers to. */
  method ScatterChildren(nodes: seq<Node>, e: Edge, nodeids: map<Key, Node>, rows: seq<Child>,
                         ghost before: map<Node, map<Edge, seq<Child>>>)
    returns (err: Option<Error>)
    requires IndexedById(nodes, nodeids)
    requires forall n <- nodes :: n in before && n.children == before[n][e := Collected(nodes, [], n)]
    modifies Objects(nodes)`children
    ensures var k := Owned(Ids(nodes), rows);
            && err == (if k == |rows| then None else Some(RowError(rows[k])))
            && forall n <- nodes :: n.children == before[n][e := Collected(nodes, rows[..k], n)]
  {
    var k := 0;
    while k < |rows|
      invariant 0 <= k <= |rows| && Owned(Ids(nodes), rows) == OwnedFrom(Ids(nodes), rows, k)
      invariant forall n <- nodes :: n.children == before[n][e := Collected(nodes, rows[..k], n)]
    {
      var row := rows[k];
      if row.fk.None? {
        return Some(NilForeignKey(row.id));
      }
      LastNodeIsNode(nodes, row.fk.value);
      if row.fk.value !in nodeids {
        return Some(UnexpectedForeignKey(row.fk.value));
      }
      AppendRow(nodes, nodeids[row.fk.value], e, rows[..k], row, before);
      assert rows[..k + 1] == rows[..k] + [row];
      k := k + 1;
    }
    assert rows[..k] == rows;
    return None;
  }

  /** One turn of the second loop. */
  method AppendRow(nodes: seq<Node>, node: Node, e: Edge, ghost done: seq<Child>, row: Child,
                   ghost before: map<Node, map<Edge, seq<Child>>>)
    requires node in nodes && row.fk == Some(node.id) && LastNode(nodes, node.id) == Some(node)
    requires forall n <- nodes :: n in before && n.children == before[n][e := Collected(nodes, done, n)]
    modifies node`children
    ensures forall n <- nodes :: n.children == before[n][e := Collected(nodes, done + [row], n)]
  {
    assert node.children[e] == Collected(nodes, done, node);
    node.children := node.children[e := node.children[e] + [row]];
    assert node.children == before[node][e := Collected(nodes, done, node) + [row]];
    forall n <- nodes ensures n.children == before[n][e := Collected(nodes, done + [row], n)] {
      CollectedStep(nodes, done, row, n);
      assert Collected(nodes, done, n) + [] == Collected(nodes, done, n);
    }
  }

  /** The first loop: the query's keys, the index from id to node, and empty lists. */
  method IndexById(nodes: seq<Node>, e: Edge) returns (fks: seq<Key>, nodeids: map<Key, Node>)
    modifies Objects(nodes)`children
    ensures fks == Ids(nodes)
    ensures IndexedById(nodes, nodeids)
    ensures forall n <- nodes :: n.children == old(n.children)[e := []]
  {
    fks, nodeids := [], map[];
    var i := 0;
    while i < |nodes|
      invariant 0 <= i <= |nodes|
      invariant fks == Ids(nodes[..i])
      invariant IndexedById(nodes[..i], nodeids)
      invariant forall n <- nodes :: n.children == if n in nodes[..i] then old(n.children)[e := []] else old(n.children)
    {
      var n := nodes[i];
      assert nodes[..i + 1] == nodes[..i] + [n] && nodes[..i + 1][..i] == nodes[..i];
      fks := fks + [n.id];
      nodeids := nodeids[n.id := n];
      n.children := n.children[e := []];
      i := i + 1;
    }
    assert nodes[..i] == nodes;
  }

  lemma {:induction false} LastNodeIsNode(nodes: seq<Node>, id: Key)
    ensures var n := LastNode(nodes, id);
            && (n.Some? ==> n.value in nodes && n.value.id == id)
            && (n.Some? <==> id in Ids(nodes))
  {
    if nodes != [] {
      var front := nodes[..|nodes| - 1];
      assert nodes == front + [nodes[|nodes| - 1]];
      assert Ids(nodes) == Ids(front) + [nodes[|nodes| - 1].id];
      LastNodeIsNode(front, id);
    }
  }

  lemma CollectedStep(nodes: seq<Node>, rows: seq<Child>, row: Child, n: Node)
    ensures Collected(nodes, rows + [row], n)
         == Collected(nodes, rows, n)
            + if row.fk == Some(n.id) && LastNode(nodes, n.id) == Some(n) then [row] else []
  {
  }

  // ---- The batched load partitions the rows ------------------------------------------

  /** All the lists, one after another. */
  function Gathered(nodes: seq<Node>, rows: seq<Child>): seq<Child> {
    if nodes == [] then []
    else Gathered(nodes[..|nodes| - 1], rows) + RowsFor(rows, nodes[|nodes| - 1].id)
  }

  function RowsIn(rows: seq<Child>, ids: set<Key>): seq<Child> {
    if rows == [] then []
    else
      var r := rows[|rows| - 1];
      RowsIn(rows[..|rows| - 1], ids) + if r.fk.Some? && r.fk.value in ids then [r] else []
  }

  predicate DistinctIds(nodes: seq<Node>) {
    forall i, j :: 0 <= i < j < |nodes| ==> nodes[i].id != nodes[j].id
  }

  lemma {:induction false} OneMoreId(rows: seq<Child>, ids: set<Key>, id: Key)
    requires id !in ids
    ensures multiset(RowsIn(rows, ids + {id})) == multiset(RowsIn(rows, ids)) + multiset(RowsFor(rows, id))
  {
    if rows != [] {
      OneMoreId(rows[..|rows| - 1], ids, id);
    }
  }

  ghost function IdSet(nodes: seq<Node>): set<Key> {
    if nodes == [] then {} else IdSet(nodes[..|nodes| - 1]) + {nodes[|nodes| - 1].id}
  }

  lemma {:induction false} IdSetMembers(nodes: seq<Node>, id: Key)
    ensures id in IdSet(nodes) <==> id in Ids(nodes)
  {
    if nodes != [] {
      IdSetMembers(nodes[..|nodes| - 1], id);
      assert Ids(nodes) == Ids(nodes[..|nodes| - 1]) + [nodes[|nodes| - 1].id];
    }
  }

  lemma {:induction false} GatheredRows(nodes: seq<Node>, rows: seq<Child>)
    requires DistinctIds(nodes)
    ensures multiset(Gathered(nodes, rows)) == multiset(RowsIn(rows, IdSet(nodes)))
  {
    if nodes == [] {
      NoIdsNoRows(rows);
    } else {
      var front, id := nodes[..|nodes| - 1], nodes[|nodes| - 1].id;
      GatheredRows(front, rows);
      IdSetMembers(front, id);
      OneMoreId(rows, IdSet(front), id);
    }
  }

  lemma {:induction false} NoIdsNoRows(rows: seq<Child>)
    ensures RowsIn(rows, {}) == []
  {
    if rows != [] {
      NoIdsNoRows(rows[..|rows| - 1]);
    }
  }

  lemma {:induction false} AllRowsIn(rows: seq<Child>, ids: set<Key>)
    requires forall r <- rows :: r.fk.Some? && r.fk.value in ids
    ensures RowsIn(rows, ids) == rows
  {
    if rows != [] {
      var front, r := rows[..|rows| - 1], rows[|rows| - 1];
      assert rows == front + [r];
      AllRowsIn(front, ids);
    }
  }

  lemma {:induction false} LastNodeOfDistinct(nodes: seq<Node>, n: Node)
    requires DistinctIds(nodes) && n in nodes
    ensures LastNode(nodes, n.id) == Some(n)
  {
    var m := nodes[|nodes| - 1];
    var front := nodes[..|nodes| - 1];
    assert nodes == front + [m];
    if m != n {
      var j :| 0 <= j < |nodes| && nodes[j] == n;
      LastNodeOfDistinct(front, n);
    }
  }

  /** For nodes with distinct ids, and a query that returns rows of these nodes only, the
      load fails for no row, gives every node the subsequence of its rows, and neither
      loses nor duplicates a row. */
  lemma LoadPartitions(nodes: seq<Node>, rows: seq<Child>)
    requires DistinctIds(nodes) && forall r <- rows :: r.fk.Some? && r.fk.value in Ids(nodes)
    ensures Owned(Ids(nodes), rows) == |rows|
    ensures forall n <- nodes :: Collected(nodes, rows, n) == RowsFor(rows, n.id)
    ensures multiset(Gathered(nodes, rows)) == multiset(rows)
    ensures |Gathered(nodes, rows)| == |rows|
  {
    AllOwned(Ids(nodes), rows);
    forall n <- nodes ensures Collected(nodes, rows, n) == RowsFor(rows, n.id) {
      LastNodeOfDistinct(nodes, n);
    }
    GatheredAll(nodes, rows);
  }

  lemma AllOwned(ids: seq<Key>, rows: seq<Child>)
    requires forall r <- rows :: r.fk.Some? && r.fk.value in ids
    ensures Owned(ids, rows) == |rows|
  {
    assert forall i :: 0 <= i < |rows| ==> rows[i] in rows;
  }

  lemma GatheredAll(nodes: seq<Node>, rows: seq<Child>)
    requires DistinctIds(nodes) && forall r <- rows :: r.fk.Some? && r.fk.value in Ids(nodes)
    ensures multiset(Gathered(nodes, rows)) == multiset(rows) && |Gathered(nodes, rows)| == |rows|
  {
    GatheredRows(nodes, rows);
    forall r <- rows ensures r.fk.value in IdSet(nodes) {
      IdSetMembers(nodes, r.fk.value);
    }
    AllRowsIn(rows, IdSet(nodes));
    assert |multiset(Gathered(nodes, rows))| == |multiset(rows)|;
  }

  /** Every node gets its rows exactly when the nodes that share an id with a later, other
      node have no rows. */
  lemma DuplicatesLoseRows(nodes: seq<Node>, rows: seq<Child>)
    ensures (forall n <- nodes :: Collected(nodes, rows, n) == RowsFor(rows, n.id))
            <==> forall i, j :: 0 <= i < j < |nodes| && nodes[i].id == nodes[j].id && nodes[i] != nodes[j]
                                ==> RowsFor(rows, nodes[i].id) == []
  {
    if forall n <- nodes :: Collected(nodes, rows, n) == RowsFor(rows, n.id) {
      forall i, j | 0 <= i < j < |nodes| && nodes[i].id == nodes[j].id && nodes[i] != nodes[j]
        ensures RowsFor(rows, nodes[i].id) == []
      {
        assert nodes[i] in nodes && nodes[j] in nodes;
        assert Collected(nodes, rows, nodes[i]) == RowsFor(rows, nodes[i].id);
        assert Collected(nodes, rows, nodes[j]) == RowsFor(rows, nodes[j].id);
      }
    } else {
      var n :| n in nodes && Collected(nodes, rows, n) != RowsFor(rows, n.id);
      var i :| 0 <= i < |nodes| && nodes[i] == n;
      var j := LastPosition(nodes, n.id, i);
      assert LastNode(nodes, n.id) != Some(n);
      assert i < j && nodes[i].id == nodes[j].id && nodes[i] != nodes[j];
    }
  }

  /** Two nodes with one id: a row of theirs reaches the second only. */
  lemma FirstDuplicateLosesItsRow(a: Node, b: Node, row: Child)
    requires a != b && a.id == b.id && row.fk == Some(a.id)
    ensures Owned(Ids([a, b]), [row]) == 1 && RowsFor([row], a.id) == [row]
    ensures Collected([a, b], [row], a) == [] && Collected([a, b], [row], b) == [row]
  {
    assert [row][..0] == [] && [a, b][..1] == [a] && Ids([a, b])[0] == a.id;
    assert OwnedFrom(Ids([a, b]), [row], 1) == 1;
  }

  lemma {:induction false} LastPosition(nodes: seq<Node>, id: Key, i: nat) returns (j: nat)
    requires i < |nodes| && nodes[i].id == id
    ensures i <= j < |nodes| && nodes[j].id == id && LastNode(nodes, id) == Some(nodes[j])
  {
    if nodes[|nodes| - 1].id == id {
      j := |nodes| - 1;
    } else {
      j := LastPosition(nodes[..|nodes| - 1], id, i);
    }
  }
}
