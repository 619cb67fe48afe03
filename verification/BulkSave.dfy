/** `CreateBulk.Save` over the objects it really updates: nodes, specs and mutations.
    Every method is tied to the state function `BulkCreate.Run`. */
module BulkSave {
  import opened Prelude
  import opened Hooks
  import opened BulkCreate

  /** A created entity. `pos` is the position of the builder that made it. */
  class Node {
    var id: Key
    const secret: string
    ghost const pos: nat

    constructor (id: Key, secret: string, ghost pos: nat)
      ensures this.id == id && this.secret == secret && this.pos == pos
    {
      this.id, this.secret, this.pos := id, secret, pos;
    }
  }

  /** One row of the batch; the database may set its id. */
  class Spec {
    var id: Option<Key>
    const secret: string
    ghost const pos: nat

    constructor (id: Option<Key>, secret: string, ghost pos: nat)
      ensures this.id == id && this.secret == secret && this.pos == pos
    {
      this.id, this.secret, this.pos := id, secret, pos;
    }
  }

  /** A mutation's id is unset, a value of its own, or the id field of a saved node. */
  datatype IdRef = Unset | Own(id: Key) | OfNode(node: Node) {
    function Read(): Option<Key>
      reads if OfNode? then {node} else {}
    {
      match this
      case Unset => None
      case Own(id) => Some(id)
      case OfNode(node) => Some(node.id)
    }
  }

  class Mutation {
    var secret: Payload
    var id: IdRef
    var done: bool

    constructor (secret: Payload, id: IdRef)
      ensures this.secret == secret && this.id == id && !this.done
    {
      this.secret, this.id, this.done := secret, id, false;
    }
  }

  class CreateBulk {
    const plan: Plan
    const mutations: seq<Mutation>   // one per builder
    const defaultIds: seq<Key>       // what each builder's default id function yields
    const builderError: Option<Error>
    var nodes: array<Node?>
    var specs: array<Spec?>
    var mutators: array<Mutator>
    var batches: seq<seq<Option<SpecValue>>> // what the database has received
    ghost var state: State
    ghost var repr: set<object>

    constructor (plan: Plan, mutations: seq<Mutation>, defaultIds: seq<Key>, builderError: Option<Error>)
      ensures this.plan == plan && this.mutations == mutations
      ensures this.defaultIds == defaultIds && this.builderError == builderError
      ensures batches == []
    {
      this.plan, this.mutations, this.defaultIds, this.builderError := plan, mutations, defaultIds, builderError;
      nodes, specs, mutators := new Node?[0], new Spec?[0], new Mutator[0];
      batches := [];
      repr := {};
    }

    /** One slot of everything per builder. */
    ghost predicate Shaped()
      reads this
    {
      var n := |plan.stacks|;
      state.Sized(n) && |mutations| == nodes.Length == specs.Length == mutators.Length == n
    }

    ghost predicate NodesHold()
      requires Shaped()
      reads this, repr, nodes
    {
      forall i :: 0 <= i < nodes.Length ==>
        if nodes[i] == null then state.nodes[i].None?
        else nodes[i] in repr && nodes[i].pos == i
             && state.nodes[i] == Some(NodeValue(nodes[i].id, nodes[i].secret))
    }

    ghost predicate SpecsHold()
      requires Shaped()
      reads this, repr, specs
    {
      forall i :: 0 <= i < specs.Length ==>
        if specs[i] == null then state.specs[i].None?
        else specs[i] in repr && specs[i].pos == i
             && state.specs[i] == Some(SpecValue(specs[i].id, specs[i].secret))
    }

    /** The saved nodes that mutations refer to, those of earlier saves included. */
    ghost function Linked(): set<Node>
      reads mutations
    {
      set m | m in mutations && m.id.OfNode? :: m.id.node
    }

    ghost predicate MutationsHold()
      requires Shaped()
      reads this, repr, mutations, Linked()
    {
      && (forall i :: 0 <= i < |mutations| ==>
            && mutations[i] in repr
            && (mutations[i].id.OfNode? && mutations[i].id.node in repr ==> mutations[i].id.node.pos == i))
      && (forall i :: 0 <= i < |mutations| ==> state.ids[i] == mutations[i].id.Read())
      && (forall i :: 0 <= i < |mutations| ==> state.secrets[i] == mutations[i].secret)
      && (forall i :: 0 <= i < |mutations| ==> state.done[i] == mutations[i].done)
      && (forall i, j :: 0 <= i < j < |mutations| ==> mutations[i] != mutations[j])
    }

    /** The real objects hold what `state` says. */
    ghost predicate Valid()
      reads this, repr, nodes, specs, mutators, mutations, Linked()
    {
      && {this, nodes, specs, mutators} <= repr
      && Shaped() && state.batches == batches
      && (forall i :: 0 <= i < mutators.Length ==> mutators[i] == Chain(plan.stacks[i], 0))
      && NodesHold() && SpecsHold() && MutationsHold()
    }

    /** `createSpec`: a new node and a new spec from the builder's mutation. */
    method CreateSpec(i: nat)
      requires Valid() && i < |plan.stacks| && Check(state.secrets[i])
      modifies repr
      ensures Valid() && fresh(repr - old(repr))
      ensures nodes == old(nodes) && specs == old(specs) && mutators == old(mutators)
      ensures state == Fill(plan, i, old(state))
    {
      var m := mutations[i];
      var id := if plan.copyBack then None else m.id.Read();
      var node := new Node(id.GetOr(0), m.secret.value, i);
      var spec := new Spec(id, m.secret.value, i);
      Install(i, node, spec);
    }

    /** `nodes[i], specs[i] = node, spec`. */
    method Install(i: nat, node: Node, spec: Spec)
      requires Valid() && i < |plan.stacks| && node !in repr && spec !in repr
      requires node.pos == i && spec.pos == i && node !in Linked()
      modifies this, nodes, specs
      ensures Valid() && repr == old(repr) + {node, spec}
      ensures nodes == old(nodes) && specs == old(specs) && mutators == old(mutators)
      ensures state == old(state).(nodes := old(state).nodes[i := Some(NodeValue(node.id, node.secret))],
                                   specs := old(state).specs[i := Some(SpecValue(spec.id, spec.secret))])
    {
      nodes[i] := node;
      specs[i] := spec;
      repr := repr + {node, spec};
      state := state.(nodes := state.nodes[i := Some(NodeValue(node.id, node.secret))],
                      specs := state.specs[i := Some(SpecValue(spec.id, spec.secret))]);
    }

    /** `BatchCreate`: hands all specs over; the database may set their ids. */
    method BatchCreate() returns (err: Option<Error>)
      requires Valid() && Filled(state, |plan.stacks|)
      modifies repr
      ensures Valid() && repr == old(repr)
      ensures nodes == old(nodes) && specs == old(specs) && mutators == old(mutators)
      ensures (err, state) == SendBatch(plan, old(state))
    {
      var call := |batches|;
      SendSpecs();
      err := plan.accept(call);
      if err.None? {
        StampSpecs(call);
      }
    }

    method SendSpecs()
      requires Valid()
      modifies `batches, `state
      ensures Valid() && state == old(state).(batches := old(state).batches + [old(state).specs])
    {
      batches := batches + [SpecValues()];
      state := state.(batches := batches);
    }

    /** What an accepted batch call writes into the specs. */
    method StampSpecs(call: nat)
      requires Valid() && Filled(state, |plan.stacks|)
      modifies `state, set spec | spec in repr && spec is Spec
      ensures Valid()
      ensures state == old(state).(specs := Stamped(plan, call, old(state).specs))
    {
      if plan.copyBack {
        forall j | 0 <= j < specs.Length {
          specs[j].id := Some(plan.rowId(call, j));
        }
      }
      state := state.(specs := Stamped(plan, call, state.specs));
    }

    function SpecValues(): (r: seq<Option<SpecValue>>)
      requires Valid()
      reads this, repr, nodes, specs, mutators, mutations, Linked()
      ensures r == state.specs
    {
      SpecValuesUpTo(specs.Length)
    }

    function SpecValuesUpTo(n: nat): (r: seq<Option<SpecValue>>)
      requires Valid() && n <= specs.Length
      reads this, repr, nodes, specs, mutators, mutations, Linked()
      ensures r == state.specs[..n]
    {
      if n == 0 then []
      else
        var spec := specs[n - 1];
        SpecValuesUpTo(n - 1) + [if spec == null then None else Some(SpecValue(spec.id, spec.secret))]
    }

    /** A hook's change to the mutation. */
    method SetSecret(i: nat, payload: Payload)
      requires Valid() && i < |plan.stacks|
      modifies `state, mutations[i]
      ensures Valid() && state == old(state).(secrets := old(state).secrets[i := payload])
    {
      mutations[i].secret := payload;
      state := state.(secrets := state.secrets[i := payload]);
    }

    /** Runs mutator `m` of builder `i`. */
    method Mutate(i: nat, m: Mutator) returns (err: Option<Error>)
      requires Valid() && i < |plan.stacks| && Filled(state, i)
      modifies repr
      ensures Valid() && fresh(repr - old(repr))
      ensures nodes == old(nodes) && specs == old(specs) && mutators == old(mutators)
      ensures (err, state) == Run(plan, i, m, old(state))
      decreases |plan.stacks| - i, m
    {
      match m
      case Base =>
        err := Closure(i);
      case Wrapped(_, hook, next) =>
        match hook {
          case Pass => err := Mutate(i, next);
          case Amend(payload) =>
            SetSecret(i, payload);
            err := Mutate(i, next);
          case FailBefore(tag) => err := Some(HookFailed(tag));
          case FailAfter(tag) =>
            err := Mutate(i, next);
            if err.None? { err := Some(HookFailed(tag)); }
          case Retry =>
            err := Mutate(i, next);
            if err.Some? { err := Mutate(i, next); }
          case Recover =>
            err := Mutate(i, next);
            err := None;
          case Skip => err := None;
        }
    }

    /** The closure of builder `i`. */
    method Closure(i: nat) returns (err: Option<Error>)
      requires Valid() && i < |plan.stacks| && Filled(state, i)
      modifies repr
      ensures Valid() && fresh(repr - old(repr))
      ensures nodes == old(nodes) && specs == old(specs) && mutators == old(mutators)
      ensures (err, state) == Run(plan, i, Base, old(state))
      decreases |plan.stacks| - i, Base, 0
    {
      if mutations[i].secret.None? || mutations[i].secret.value == "" {
        return Some(CheckFailed);
      }
      CreateSpec(i);
      if i + 1 < mutators.Length {
        err := Mutate(i + 1, mutators[i + 1]);
      } else {
        err := BatchCreate();
      }
      if err.Some? {
        return;
      }
      Complete(i);
    }

    /** The way back out: the mutation's id is the node's id field, which then takes the
        id the database assigned, and the mutation is marked done. */
    method Complete(i: nat)
      requires Valid() && i < |plan.stacks| && Filled(state, i + 1)
      modifies repr
      ensures Valid() && repr == old(repr)
      ensures nodes == old(nodes) && specs == old(specs) && mutators == old(mutators)
      ensures state == Finish(plan, i, old(state))
    {
      LinkNode(i);
      MarkDone(i);
    }

    method MarkDone(i: nat)
      requires Valid() && i < |plan.stacks|
      modifies `state, mutations[i]
      ensures Valid() && state == old(state).(done := old(state).done[i := true])
    {
      mutations[i].done := true;
      state := state.(done := state.done[i := true]);
    }

    /** `mutation.id = &nodes[i].ID`, and then the assigned id goes into the node. */
    method LinkNode(i: nat)
      requires Valid() && i < |plan.stacks| && Filled(state, i + 1)
      modifies repr
      ensures Valid() && repr == old(repr) && mutations[i] in repr
      ensures nodes == old(nodes) && specs == old(specs) && mutators == old(mutators)
      ensures state == Finish(plan, i, old(state)).(done := old(state).done)
    {
      var node := nodes[i];
      mutations[i].id := OfNode(node);
      state := state.(ids := state.ids[i := Some(node.id)]);
      if plan.copyBack && specs[i].id.Some? {
        SetNodeId(i, specs[i].id.value);
      }
    }

    method SetNodeId(i: nat, id: Key)
      requires Valid() && i < |plan.stacks| && nodes[i] != null && mutations[i].id == OfNode(nodes[i])
      modifies nodes[i], `state
      ensures Valid()
      ensures state == old(state).(nodes := old(state).nodes[i := Some(old(state).nodes[i].value.(id := id))],
                                   ids := old(state).ids[i := Some(id)])
    {
      nodes[i].id := id;
      state := state.(nodes := state.nodes[i := Some(state.nodes[i].value.(id := id))],
                      ids := state.ids[i := Some(id)]);
    }

    // ---- Save ----------------------------------------------------------------------

    /** What the builders hand to `Save`. */
    predicate Buildable() {
      && |mutations| == |plan.stacks| == |defaultIds|
      && (forall i, j :: 0 <= i < j < |mutations| ==> mutations[i] != mutations[j])
    }

    ghost function Secrets(): (r: seq<Payload>)
      reads mutations
      ensures |r| == |mutations| && forall i :: 0 <= i < |r| ==> r[i] == mutations[i].secret
    {
      seq(|mutations|, i requires 0 <= i < |mutations| reads mutations => mutations[i].secret)
    }

    /** A builder's id once `defaults` has run. */
    function Defaulted(m: Mutation, defaultId: Key): Option<Key>
      reads m, if m.id.OfNode? then {m.id.node} else {}
    {
      if m.id.Unset? && !plan.copyBack then Some(defaultId) else m.id.Read()
    }

    ghost function DefaultedIds(): (r: seq<Option<Key>>)
      requires Buildable()
      reads mutations, Linked()
      ensures |r| == |mutations| && forall i :: 0 <= i < |r| ==> r[i] == Defaulted(mutations[i], defaultIds[i])
    {
      seq(|mutations|, i requires 0 <= i < |mutations| && Buildable() reads mutations, Linked() =>
        Defaulted(mutations[i], defaultIds[i]))
    }

    ghost function Marks(): (r: seq<bool>)
      reads mutations
      ensures |r| == |mutations| && forall i :: 0 <= i < |r| ==> r[i] == mutations[i].done
    {
      seq(|mutations|, i requires 0 <= i < |mutations| reads mutations => mutations[i].done)
    }

    /** The state in which the chain starts: empty slots, defaults applied. */
    ghost function Start(): (s: State)
      requires Buildable()
      reads `batches, mutations, Linked()
      ensures s.Sized(|plan.stacks|) && s.batches == batches
      ensures forall i :: 0 <= i < |mutations| ==>
                && s.nodes[i] == None && s.specs[i] == None
                && s.secrets[i] == mutations[i].secret && s.done[i] == mutations[i].done
                && s.ids[i] == if !plan.copyBack && mutations[i].id.Unset? then Some(defaultIds[i])
                               else mutations[i].id.Read()
    {
      var n := |plan.stacks|;
      State(seq(n, _ => None), seq(n, _ => None), Secrets(), DefaultedIds(), Marks(), batches)
    }

    /** `builder.defaults()`. */
    method Defaults(m: Mutation, defaultId: Key)
      modifies m`id
      ensures m.id.Read() == old(Defaulted(m, defaultId))
      ensures m.id == if !plan.copyBack && old(m.id.Unset?) then Own(defaultId) else old(m.id)
    {
      if !plan.copyBack && m.id.Unset? {
        m.id := Own(defaultId);
      }
    }

    /** `mut = hooks[k](mut)` from the last hook down to the first. */
    method Wrap(hooks: seq<Hook>) returns (mut: Mutator)
      ensures mut == Chain(hooks, 0)
    {
      mut := Base;
      var k := |hooks|;
      while k > 0
        invariant 0 <= k <= |hooks|
        invariant mut == Chain(hooks, k)
      {
        k := k - 1;
        mut := Wrapped(k, hooks[k], mut);
      }
    }

    /** The loop over the builders: defaults, and each builder's wrapped mutator. */
    method BuildMutators(ghost start: State)
      requires Buildable() && mutators.Length == |plan.stacks| && Prepared(start, 0)
      modifies mutators, mutations
      ensures MutatorsBuilt(|plan.stacks|) && Prepared(start, |mutations|)
    {
      var i := 0;
      while i < |mutations|
        invariant 0 <= i <= |mutations| && MutatorsBuilt(i) && Prepared(start, i)
      {
        PrepareBuilder(start, i);
        BuildMutator(i);
        i := i + 1;
      }
    }

    ghost predicate MutatorsBuilt(n: nat)
      reads this, mutators
    {
      n <= mutators.Length == |plan.stacks| && forall j :: 0 <= j < n ==> mutators[j] == Chain(plan.stacks[j], 0)
    }

    method BuildMutator(i: nat)
      requires i < |plan.stacks| && MutatorsBuilt(i)
      modifies mutators
      ensures MutatorsBuilt(i + 1)
    {
      mutators[i] := Wrap(plan.stacks[i]);
    }

    /** The builders hold what `start` says, the first `n` of them with defaults applied. */
    ghost predicate Prepared(start: State, n: int)
      requires Buildable()
      reads mutations, Linked()
    {
      && start.Sized(|mutations|)
      && (forall j :: 0 <= j < |mutations| ==> start.secrets[j] == mutations[j].secret)
      && (forall j :: 0 <= j < |mutations| ==> start.done[j] == mutations[j].done)
      && (forall j :: 0 <= j < |mutations| ==>
            start.ids[j] == if j < n then mutations[j].id.Read() else Defaulted(mutations[j], defaultIds[j]))
    }

    method PrepareBuilder(ghost start: State, i: nat)
      requires Buildable() && i < |mutations| && Prepared(start, i)
      modifies mutations[i]
      ensures Prepared(start, i + 1)
    {
      Defaults(mutations[i], defaultIds[i]);
    }

    method NewArrays(n: nat)
      modifies `nodes, `specs, `mutators
      ensures fresh(nodes) && fresh(specs) && fresh(mutators)
      ensures nodes.Length == specs.Length == mutators.Length == n
      ensures forall j :: 0 <= j < n ==> nodes[j] == null && specs[j] == null
    {
      specs := new Spec?[n](_ => null);
      nodes := new Node?[n](_ => null);
      mutators := new Mutator[n](_ => Base);
    }

    /** The arrays, the defaults and the chain of mutators, before anything is mutated. */
    method BuildChain()
      requires Buildable()
      modifies this, mutations
      ensures Valid() && state == old(Start()) && batches == old(batches)
      ensures fresh(nodes) && fresh(specs) && fresh(mutators)
      ensures repr == {this, nodes, specs, mutators} + set m <- mutations
    {
      ghost var start := Start();
      var n := |plan.stacks|;
      NewArrays(n);
      BuildMutators(start);
      OpenChain(start);
    }

    /** Ties the freshly built objects to the start state. */
    ghost method OpenChain(start: State)
      requires |mutations| == nodes.Length == specs.Length == mutators.Length == |plan.stacks|
      requires forall j :: 0 <= j < nodes.Length ==> nodes[j] == null && specs[j] == null
      requires MutatorsBuilt(|plan.stacks|)
      requires start.Sized(|plan.stacks|) && start.batches == batches
      requires forall j :: 0 <= j < nodes.Length ==> start.nodes[j] == None && start.specs[j] == None
      requires Buildable() && Prepared(start, |mutations|)
      modifies `repr, `state
      ensures Valid() && state == start
      ensures repr == {this, nodes, specs, mutators} + set m <- mutations
    {
      repr := {this, nodes, specs, mutators} + set m <- mutations;
      state := start;
    }

    /** A reported success means that everything was saved. */
    ghost predicate Trusted()
      reads mutations
    {
      && |mutations| == |plan.stacks| > 0 && !Swallows(plan.stacks[0], 0)
      && Safe(plan, seq(|mutations|, j requires 0 <= j < |mutations| reads mutations =>
                Amended(plan.stacks[j], 0, mutations[j].secret)), 0, 0)
    }

    lemma TrustedStart()
      requires Buildable() && Trusted() && !plan.copyBack
      ensures Keyed(plan, Start()) && Safe(plan, Finals(plan, Start()), 0, 0)
    {
      assert Finals(plan, Start()) == seq(|mutations|, j requires 0 <= j < |mutations| reads mutations =>
        Amended(plan.stacks[j], 0, mutations[j].secret));
    }

    /** `Save`. Without ids from the database every saved node, and its row in the last batch,
        has the id its builder was given, or the default id if it was given none. */
    method Save() returns (r: Result<array<Node?>, Error>)
      requires Buildable()
      modifies this, mutations
      ensures builderError.Some? ==> r == Err(builderError.value) && unchanged(mutations) && batches == old(batches)
      ensures builderError.None? ==>
        && Valid() && (r.Ok? ==> r.value == nodes)
        && (if r.Err? then Some(r.error) else None, state) == RunAll(plan, old(Start()))
      ensures builderError.None? && r.Ok? && !plan.copyBack && old(Trusted()) ==>
                forall i :: 0 <= i < |mutations| ==>
                  SavedAs(i, old(if mutations[i].id.Unset? then defaultIds[i] else mutations[i].id.Read().value))
    {
      ghost var start, trusted := Start(), Trusted();
      if trusted && !plan.copyBack {
        TrustedStart();
      }
      if builderError.Some? {
        return Err(builderError.value);
      }
      var err := RunChain();
      if err.Some? {
        return Err(err.value);
      }
      if !plan.copyBack && trusted {
        SavedIds(this, start);
      }
      return Ok(nodes);
    }

    /** `mutators[0].Mutate(ctx, builders[0].mutation)`. */
    method RunChain() returns (err: Option<Error>)
      requires Buildable()
      modifies this, mutations
      ensures Valid() && (err, state) == RunAll(plan, old(Start()))
    {
      BuildChain();
      err := None;
      if |plan.stacks| > 0 {
        err := Mutate(0, mutators[0]);
      }
    }

    /** Node `i` and its row in the last batch carry this id. */
    ghost predicate SavedAs(i: nat, id: Key)
      requires Valid()
      reads this, repr, nodes, specs, mutators, mutations, Linked()
    {
      && i < nodes.Length && nodes[i] != null && nodes[i].id == id
      && |batches| > 0 && i < |batches[|batches| - 1]|
      && batches[|batches| - 1][i].Some? && batches[|batches| - 1][i].value.id == Some(id)
    }
  }

  lemma SavedIds(b: CreateBulk, start: State)
    requires b.Valid() && |b.plan.stacks| > 0 && start.Sized(|b.plan.stacks|) && Keyed(b.plan, start)
    requires RunAll(b.plan, start) == (None, b.state)
    requires Safe(b.plan, Finals(b.plan, start), 0, 0) && !Swallows(b.plan.stacks[0], 0)
    ensures forall i :: 0 <= i < |b.plan.stacks| ==> b.SavedAs(i, start.ids[i].value)
  {
    KeyedSave(b.plan, start);
  }

  /** After a successful `Save` whose stacks can be trusted, every node is there and carries
      the id that the last batch call gave to the row at its position, if ids come from the
      database; the mutation's id reads the same value, and the mutation is marked done. */
  lemma SavedNodes(b: CreateBulk, start: State, i: nat)
    requires b.Valid() && i < |b.plan.stacks| && start.Sized(|b.plan.stacks|)
    requires RunAll(b.plan, start) == (None, b.state)
    requires Safe(b.plan, Finals(b.plan, start), 0, 0) && !Swallows(b.plan.stacks[0], 0)
    ensures b.nodes[i] != null && b.mutations[i].done && b.mutations[i].id.Read() == Some(b.nodes[i].id)
    ensures b.plan.copyBack ==> |b.batches| > 0 && b.nodes[i].id == b.plan.rowId(|b.batches| - 1, i)
  {
    SavedRun(b.plan, 0, 0, start, Finals(b.plan, start));
  }
}
