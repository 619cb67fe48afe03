/** `sqlAll` of the generated queries: the entity's own rows first, then one load for
    every requested edge. Modelled for API keys, which have two parent edges and one list
    edge, and for fiat currencies, which have three list edges. */
module EntityQuery {
  import opened Prelude
  import opened EagerLoading

  type ParentQuery = seq<Key> -> Result<seq<Parent>, Error>
  type ChildQuery = seq<Key> -> Result<seq<Child>, Error>

  /** A stored row: its id and its non-null foreign keys. */
  datatype Row = Row(id: Key, fks: map<Edge, Key>)

  /** The requested edges; `withFKs` is set when some other loader needs the key columns. */
  datatype APIKeyQuery = APIKeyQuery(
    withFKs: bool,
    withSenderProfile: Option<ParentQuery>,
    withProviderProfile: Option<ParentQuery>,
    withPaymentOrders: Option<ChildQuery>)

  datatype FiatCurrencyQuery = FiatCurrencyQuery(
    withProviders: Option<ChildQuery>,
    withProvisionBuckets: Option<ChildQuery>,
    withInstitutions: Option<ChildQuery>)

  // ---- What a load leaves on a node ------------------------------------------------------

  /** The rows a parent load scatters: none if there is no key to ask for. */
  function ParentRows(nodes: seq<Node>, e: Edge, query: ParentQuery): seq<Parent> {
    var ids := ForeignKeys(nodes, e);
    if ids == [] || query(ids).Err? then [] else query(ids).value
  }

  function WithParent(nodes: seq<Node>, e: Edge, query: Option<ParentQuery>, n: Node, before: map<Edge, Parent>)
    : map<Edge, Parent>
  {
    if query.None? then before else Assigned(ParentRows(nodes, e, query.value), n, e, before)
  }

  function ChildRows(nodes: seq<Node>, query: ChildQuery): seq<Child> {
    if query(Ids(nodes)).Err? then [] else query(Ids(nodes)).value
  }

  function WithChildren(nodes: seq<Node>, e: Edge, query: Option<ChildQuery>, n: Node, before: map<Edge, seq<Child>>)
    : map<Edge, seq<Child>>
  {
    if query.None? then before else before[e := Collected(nodes, ChildRows(nodes, query.value), n)]
  }

  /** The load reports no error. */
  ghost predicate ParentsArrive(nodes: seq<Node>, e: Edge, query: Option<ParentQuery>) {
    query.Some? && ForeignKeys(nodes, e) != [] ==>
      var ids := ForeignKeys(nodes, e);
      query.value(ids).Ok? && Expected(ids, query.value(ids).value) == |query.value(ids).value|
  }

  ghost predicate ChildrenArrive(nodes: seq<Node>, query: Option<ChildQuery>) {
    query.Some? ==>
      query.value(Ids(nodes)).Ok? && Owned(Ids(nodes), query.value(Ids(nodes)).value) == |query.value(Ids(nodes)).value|
  }

  /** The error that a load reports, if any: the query's own, or that of the first row whose
      key was not asked for. */
  function ParentsError(nodes: seq<Node>, e: Edge, query: Option<ParentQuery>): Option<Error> {
    var ids := ForeignKeys(nodes, e);
    if query.None? || ids == [] then None
    else
      match query.value(ids)
      case Err(x) => Some(x)
      case Ok(rows) =>
        var k := Expected(ids, rows);
        if k == |rows| then None else Some(UnexpectedForeignKey(rows[k].id))
  }

  function ChildrenError(nodes: seq<Node>, query: Option<ChildQuery>): Option<Error> {
    if query.None? then None
    else
      match query.value(Ids(nodes))
      case Err(x) => Some(x)
      case Ok(rows) =>
        var k := Owned(Ids(nodes), rows);
        if k == |rows| then None
        else if rows[k].fk.None? then Some(NilForeignKey(rows[k].id))
        else Some(UnexpectedForeignKey(rows[k].fk.value))
  }

  /** The first of two errors, in load order. */
  function Earlier(a: Option<Error>, b: Option<Error>): Option<Error> {
    if a.Some? then a else b
  }

  /** `if query := q.withX; query != nil { loadX }`. */
  method LoadParentsIf(nodes: seq<Node>, e: Edge, query: Option<ParentQuery>) returns (err: Option<Error>)
    modifies Objects(nodes)`parents
    ensures err == ParentsError(nodes, e, query) && (err.None? <==> ParentsArrive(nodes, e, query))
    ensures err.None? ==> forall n <- nodes :: n.parents == WithParent(nodes, e, query, n, old(n.parents))
  {
    if query.None? {
      return None;
    }
    err := LoadParents(nodes, e, query.value);
    if ForeignKeys(nodes, e) == [] {
      forall n <- nodes ensures e !in n.fks {
        ForeignKeysAreDistinct(nodes, e);
      }
    } else if err.None? {
      var rows := query.value(ForeignKeys(nodes, e)).value;
      assert rows[..|rows|] == rows;
    }
  }

  method LoadChildrenIf(nodes: seq<Node>, e: Edge, query: Option<ChildQuery>) returns (err: Option<Error>)
    modifies Objects(nodes)`children
    ensures err == ChildrenError(nodes, query) && (err.None? <==> ChildrenArrive(nodes, query))
    ensures err.None? ==> forall n <- nodes :: n.children == WithChildren(nodes, e, query, n, old(n.children))
  {
    if query.None? {
      return None;
    }
    err := LoadChildren(nodes, e, query.value);
    if err.None? {
      var rows := query.value(Ids(nodes)).value;
      assert rows[..|rows|] == rows;
    }
  }

  /** `Assign`: one fresh node per row. Key columns are read only if they were selected. */
  method BuildNodes(rows: seq<Row>, withFKs: bool, loaded: set<Edge>) returns (nodes: seq<Node>)
    ensures Built(rows, withFKs, loaded, nodes)
    ensures fresh(Objects(nodes)) && forall n <- nodes :: n.parents == map[] && n.children == map[]
  {
    nodes := [];
    var i := 0;
    while i < |rows|
      invariant 0 <= i <= |rows| && Built(rows[..i], withFKs, loaded, nodes)
      invariant fresh(Objects(nodes)) && forall n <- nodes :: n.parents == map[] && n.children == map[]
    {
      ghost var before := Objects(nodes);
      var node := new Node(rows[i].id, if withFKs then rows[i].fks else map[], loaded);
      assert node !in before && forall n <- nodes :: n in before;
      nodes := nodes + [node];
      i := i + 1;
    }
    assert rows[..i] == rows;
  }

  ghost predicate Built(rows: seq<Row>, withFKs: bool, loaded: set<Edge>, nodes: seq<Node>) {
    && |nodes| == |rows|
    && (forall i :: 0 <= i < |nodes| ==>
          && nodes[i].id == rows[i].id && nodes[i].loaded == loaded
          && nodes[i].fks == if withFKs then rows[i].fks else map[])
    && (forall i, j :: 0 <= i < j < |nodes| ==> nodes[i] != nodes[j])
  }

  // ---- API keys ---------------------------------------------------------------------------

  function RequestedEdges(q: APIKeyQuery): set<Edge> {
    (if q.withSenderProfile.Some? then {SenderProfile} else {}) +
    (if q.withProviderProfile.Some? then {ProviderProfile} else {}) +
    (if q.withPaymentOrders.Some? then {PaymentOrders} else {})
  }

  /** The foreign key columns are selected whenever a parent edge is requested. */
  predicate SelectsKeys(q: APIKeyQuery) {
    q.withFKs || q.withSenderProfile.Some? || q.withProviderProfile.Some?
  }

  /** The nodes of a successful API key query. */
  ghost predicate APIKeysLoaded(q: APIKeyQuery, rows: seq<Row>, nodes: seq<Node>)
    reads Objects(nodes)
  {
    && Built(rows, SelectsKeys(q), RequestedEdges(q), nodes)
    && forall n <- nodes ::
         && n.parents == WithParent(nodes, ProviderProfile, q.withProviderProfile, n,
                                    WithParent(nodes, SenderProfile, q.withSenderProfile, n, map[]))
         && n.children == WithChildren(nodes, PaymentOrders, q.withPaymentOrders, n, map[])
  }

  method APIKeySqlAll(q: APIKeyQuery, stored: Result<seq<Row>, Error>) returns (r: Result<seq<Node>, Error>)
    ensures stored.Err? ==> r == Err(stored.error)
    ensures r.Ok? ==> stored.Ok? && fresh(Objects(r.value)) && APIKeysLoaded(q, stored.value, r.value)
    ensures stored.Ok? && r.Err? ==>
              exists nodes: seq<Node> | fresh(Objects(nodes)) ::
                && Built(stored.value, SelectsKeys(q), RequestedEdges(q), nodes)
                && !(ParentsArrive(nodes, SenderProfile, q.withSenderProfile)
                     && ParentsArrive(nodes, ProviderProfile, q.withProviderProfile)
                     && ChildrenArrive(nodes, q.withPaymentOrders))
                && Some(r.error) == Earlier(ParentsError(nodes, SenderProfile, q.withSenderProfile),
                                            Earlier(ParentsError(nodes, ProviderProfile, q.withProviderProfile),
                                                    ChildrenError(nodes, q.withPaymentOrders)))
  {
    var withFKs := q.withFKs;
    if q.withSenderProfile.Some? || q.withProviderProfile.Some? {
      withFKs := true;
    }
    if stored.Err? {
      return Err(stored.error);
    }
    var nodes := BuildNodes(stored.value, withFKs, RequestedEdges(q));
    if nodes == [] {
      return Ok(nodes);
    }
    var err := LoadParentsIf(nodes, SenderProfile, q.withSenderProfile);
    if err.Some? {
      return Err(err.value);
    }
    err := LoadParentsIf(nodes, ProviderProfile, q.withProviderProfile);
    if err.Some? {
      return Err(err.value);
    }
    err := LoadChildrenIf(nodes, PaymentOrders, q.withPaymentOrders);
    if err.Some? {
      return Err(err.value);
    }
    return Ok(nodes);
  }

  /** What a parent accessor must answer for a row. */
  function ParentAnswer(requested: bool, table: seq<Parent>, keep: Parent -> bool, row: Row, e: Edge)
    : Result<Parent, Error>
  {
    if !requested then Err(NotLoaded(e))
    else
      var p := if e in row.fks then Lookup(table, keep, row.fks[e]) else None;
      if p.Some? then Ok(p.value) else Err(NotFound(e))
  }

  /** After a query with honest edge queries, both parent accessors answer "not loaded"
      exactly when the edge was not requested, "not found" exactly when it was but the row
      has no key or no surviving parent, and the joined parent otherwise. */
  lemma ParentAccessorsReport(q: APIKeyQuery, rows: seq<Row>, nodes: seq<Node>, i: int,
                              senders: seq<Parent>, keepSender: Parent -> bool,
                              providers: seq<Parent>, keepProvider: Parent -> bool)
    requires APIKeysLoaded(q, rows, nodes) && 0 <= i < |nodes|
    requires q.withSenderProfile.Some? ==> HonestQuery(senders, keepSender, q.withSenderProfile.value)
    requires q.withProviderProfile.Some? ==> HonestQuery(providers, keepProvider, q.withProviderProfile.value)
    ensures nodes[i].ParentOrErr(SenderProfile)
         == ParentAnswer(q.withSenderProfile.Some?, senders, keepSender, rows[i], SenderProfile)
    ensures nodes[i].ParentOrErr(ProviderProfile)
         == ParentAnswer(q.withProviderProfile.Some?, providers, keepProvider, rows[i], ProviderProfile)
  {
    var n := nodes[i];
    assert n in nodes;
    var none: map<Edge, Parent> := map[];
    EdgeIsLookup(nodes, SenderProfile, q.withSenderProfile, n, none, senders, keepSender);
    var before := WithParent(nodes, SenderProfile, q.withSenderProfile, n, none);
    EdgeIsLookup(nodes, ProviderProfile, q.withProviderProfile, n, before, providers, keepProvider);
  }

  /** With distinct row ids, the list accessor answers "not loaded" exactly when the edge was
      not requested and the orders that refer to this key, in query order, otherwise. */
  lemma PaymentOrdersReport(q: APIKeyQuery, rows: seq<Row>, nodes: seq<Node>, i: nat)
    requires APIKeysLoaded(q, rows, nodes) && i < |rows|
    requires forall j, k :: 0 <= j < k < |rows| ==> rows[j].id != rows[k].id
    ensures nodes[i].ChildrenOrErr(PaymentOrders)
         == if q.withPaymentOrders.None? then Err(NotLoaded(PaymentOrders))
            else Ok(RowsFor(ChildRows(nodes, q.withPaymentOrders.value), rows[i].id))
  {
    assert nodes[i] in nodes;
    LastNodeOfDistinct(nodes, nodes[i]);
  }

  lemma EdgeIsLookup(nodes: seq<Node>, e: Edge, query: Option<ParentQuery>, n: Node, before: map<Edge, Parent>,
                     table: seq<Parent>, keep: Parent -> bool)
    requires n in nodes && (query.Some? ==> HonestQuery(table, keep, query.value))
    ensures WithParent(nodes, e, query, n, before)
         == if query.None? then before else LookedUp(table, keep, n, e, before)
  {
    if query.Some? {
      var ids := ForeignKeys(nodes, e);
      if ids == [] {
        ForeignKeysAreDistinct(nodes, e);
      } else {
        BatchIsLookup(nodes, e, table, keep, query.value(ids).value);
      }
    }
  }

  /** An honest parent query never makes the load fail. */
  lemma HonestParentsArrive(nodes: seq<Node>, e: Edge, query: ParentQuery, table: seq<Parent>, keep: Parent -> bool)
    requires HonestQuery(table, keep, query)
    ensures ParentsArrive(nodes, e, Some(query))
  {
  }

  /** Neither does a list query that returns rows of the given nodes only. */
  lemma OwnedChildrenArrive(nodes: seq<Node>, query: ChildQuery)
    requires query(Ids(nodes)).Ok?
    requires forall r <- query(Ids(nodes)).value :: r.fk.Some? && r.fk.value in Ids(nodes)
    ensures ChildrenArrive(nodes, Some(query))
  {
  }

  // ---- Fiat currencies ----------------------------------------------------------------------

  function RequestedLists(q: FiatCurrencyQuery): set<Edge> {
    (if q.withProviders.Some? then {Providers} else {}) +
    (if q.withProvisionBuckets.Some? then {ProvisionBuckets} else {}) +
    (if q.withInstitutions.Some? then {Institutions} else {})
  }

  function ListQuery(q: FiatCurrencyQuery, e: Edge): Option<ChildQuery> {
    match e
    case Providers => q.withProviders
    case ProvisionBuckets => q.withProvisionBuckets
    case Institutions => q.withInstitutions
    case _ => None
  }

  /** The nodes of a successful fiat currency query. */
  ghost predicate CurrenciesLoaded(q: FiatCurrencyQuery, rows: seq<Row>, nodes: seq<Node>)
    reads Objects(nodes)
  {
    && Built(rows, false, RequestedLists(q), nodes)
    && forall n <- nodes ::
         && n.parents == map[]
         && n.children == WithChildren(nodes, Institutions, q.withInstitutions, n,
                            WithChildren(nodes, ProvisionBuckets, q.withProvisionBuckets, n,
                              WithChildren(nodes, Providers, q.withProviders, n, map[])))
  }

  /** Every requested edge is what its load alone would leave; the others are untouched. */
  lemma ListIsItsLoad(q: FiatCurrencyQuery, rows: seq<Row>, nodes: seq<Node>, n: Node, e: Edge)
    requires CurrenciesLoaded(q, rows, nodes) && n in nodes
    ensures e in n.children <==> ListQuery(q, e).Some?
    ensures e in n.children ==> n.children[e] == WithChildren(nodes, e, ListQuery(q, e), n, map[])[e]
  {
  }

  /** The query that requests this edge as `q` does, and no other. */
  function OnlyList(q: FiatCurrencyQuery, e: Edge): FiatCurrencyQuery {
    match e
    case Providers => FiatCurrencyQuery(q.withProviders, None, None)
    case ProvisionBuckets => FiatCurrencyQuery(None, q.withProvisionBuckets, None)
    case Institutions => FiatCurrencyQuery(None, None, q.withInstitutions)
    case _ => FiatCurrencyQuery(None, None, None)
  }

  /** The three loads do not interfere: for any rows, duplicate ids included, a currency has
      the list, and its accessor the answer, that a query for that edge alone leaves it. */
  lemma ListsDoNotInterfere(q: FiatCurrencyQuery, rows: seq<Row>, nodes: seq<Node>, alone: seq<Node>, i: nat, e: Edge)
    requires CurrenciesLoaded(q, rows, nodes) && CurrenciesLoaded(OnlyList(q, e), rows, alone) && i < |rows|
    ensures e in nodes[i].children <==> e in alone[i].children
    ensures e in nodes[i].children ==> nodes[i].children[e] == alone[i].children[e]
    ensures nodes[i].ChildrenOrErr(e) == alone[i].ChildrenOrErr(e)
  {
    assert nodes[i] in nodes && alone[i] in alone;
    ListIsItsLoad(q, rows, nodes, nodes[i], e);
    ListIsItsLoad(OnlyList(q, e), rows, alone, alone[i], e);
    assert ListQuery(OnlyList(q, e), e) == ListQuery(q, e);
    assert Ids(nodes) == Ids(alone);
    LastNodeAgrees(nodes, alone, nodes[i].id, i);
  }

  /** Which position the index keeps for an id depends on the ids alone. */
  lemma {:induction false} LastNodeAgrees(nodes: seq<Node>, others: seq<Node>, id: Key, i: nat)
    requires |nodes| == |others| && i < |nodes|
    requires forall j :: 0 <= j < |nodes| ==> nodes[j].id == others[j].id
    requires forall j, k :: 0 <= j < k < |nodes| ==> nodes[j] != nodes[k] && others[j] != others[k]
    ensures LastNode(nodes, id) == Some(nodes[i]) <==> LastNode(others, id) == Some(others[i])
  {
    var last := |nodes| - 1;
    if nodes[last].id != id {
      if i == last {
        LastNodeIsNode(nodes, id);
        LastNodeIsNode(others, id);
      } else {
        LastNodeAgrees(nodes[..last], others[..last], id, i);
      }
    }
  }

  method FiatCurrencySqlAll(q: FiatCurrencyQuery, stored: Result<seq<Row>, Error>) returns (r: Result<seq<Node>, Error>)
    ensures stored.Err? ==> r == Err(stored.error)
    ensures r.Ok? ==> stored.Ok? && fresh(Objects(r.value)) && CurrenciesLoaded(q, stored.value, r.value)
    ensures stored.Ok? && r.Err? ==>
              exists nodes: seq<Node> | fresh(Objects(nodes)) ::
                && Built(stored.value, false, RequestedLists(q), nodes)
                && !(ChildrenArrive(nodes, q.withProviders) && ChildrenArrive(nodes, q.withProvisionBuckets)
                     && ChildrenArrive(nodes, q.withInstitutions))
                && Some(r.error) == Earlier(ChildrenError(nodes, q.withProviders),
                                            Earlier(ChildrenError(nodes, q.withProvisionBuckets),
                                                    ChildrenError(nodes, q.withInstitutions)))
  {
    if stored.Err? {
      return Err(stored.error);
    }
    var nodes := BuildNodes(stored.value, false, RequestedLists(q));
    if nodes == [] {
      return Ok(nodes);
    }
    var err := LoadChildrenIf(nodes, Providers, q.withProviders);
    if err.Some? {
      return Err(err.value);
    }
    err := LoadChildrenIf(nodes, ProvisionBuckets, q.withProvisionBuckets);
    if err.Some? {
      return Err(err.value);
    }
    err := LoadChildrenIf(nodes, Institutions, q.withInstitutions);
    if err.Some? {
      return Err(err.value);
    }
    return Ok(nodes);
  }

  /** With distinct row ids, every list accessor answers "not loaded" exactly when its edge
      was not requested and the rows that refer to this currency, in query order, otherwise. */
  lemma ListAccessorsReport(q: FiatCurrencyQuery, rows: seq<Row>, nodes: seq<Node>, i: int, e: Edge)
    requires CurrenciesLoaded(q, rows, nodes) && 0 <= i < |nodes|
    requires forall i, j :: 0 <= i < j < |rows| ==> rows[i].id != rows[j].id
    ensures nodes[i].ChildrenOrErr(e)
         == if ListQuery(q, e).None? then Err(NotLoaded(e))
            else Ok(RowsFor(ChildRows(nodes, ListQuery(q, e).value), rows[i].id))
  {
    assert nodes[i] in nodes;
    assert e in RequestedLists(q) <==> ListQuery(q, e).Some?;
    ListIsItsLoad(q, rows, nodes, nodes[i], e);
    LastNodeOfDistinct(nodes, nodes[i]);
  }
}
