/** The generated `CreateBulk.Save`: a chain of mutators, one per builder, in which
    mutator `i` fills slot `i` and calls mutator `i + 1`, and the last one sends the batch. */
module BulkCreate {
  import opened Prelude
  import opened Hooks

  type Key = int

  /** What a slot of `nodes` and a slot of `specs` hold. */
  datatype NodeValue = NodeValue(id: Key, secret: string)
  datatype SpecValue = SpecValue(id: Option<Key>, secret: string)

  /** Everything a run of the chain cannot change. `accept(c)` is the outcome of batch
      call number `c`; `rowId(c, i)` is the id that call gives to row `i`. */
  datatype Plan = Plan(
    stacks: seq<seq<Hook>>,
    copyBack: bool, // ids are assigned by the database and copied back
    accept: nat -> Option<Error>,
    rowId: (nat, nat) -> Key)

  /** The mutable state, one slot per builder, and the batches sent so far. */
  datatype State = State(
    nodes: seq<Option<NodeValue>>,
    specs: seq<Option<SpecValue>>,
    secrets: seq<Payload>,
    ids: seq<Option<Key>>,
    done: seq<bool>,
    batches: seq<seq<Option<SpecValue>>>)
  {
    predicate Sized(n: nat) {
      |nodes| == |specs| == |secrets| == |ids| == |done| == n
    }
  }

  /** The builder's `check`: the secret is present and its validator accepts it. */
  predicate Check(secret: Payload) {
    secret.Some? && secret.value != ""
  }

  function Fill(p: Plan, i: nat, s: State): (r: State)
    requires s.Sized(|p.stacks|) && i < |p.stacks| && Check(s.secrets[i])
    ensures r.Sized(|p.stacks|)
  {
    var id := if p.copyBack then None else s.ids[i];
    s.(nodes := s.nodes[i := Some(NodeValue(id.GetOr(0), s.secrets[i].value))],
       specs := s.specs[i := Some(SpecValue(id, s.secrets[i].value))])
  }

  /** The id that the batch call leaves in a spec. */
  function Stamped(p: Plan, call: nat, specs: seq<Option<SpecValue>>): (r: seq<Option<SpecValue>>)
    ensures |r| == |specs|
  {
    seq(|specs|, i requires 0 <= i < |specs| =>
      if specs[i].Some? && p.copyBack
      then Some(SpecValue(Some(p.rowId(call, i)), specs[i].value.secret))
      else specs[i])
  }

  function SendBatch(p: Plan, s: State): (Option<Error>, State)
    requires s.Sized(|p.stacks|)
  {
    var call := |s.batches|;
    var s1 := s.(batches := s.batches + [s.specs]);
    var err := p.accept(call);
    (err, if err.Some? then s1 else s1.(specs := Stamped(p, call, s1.specs)))
  }

  function Finish(p: Plan, i: nat, s: State): (r: State)
    requires s.Sized(|p.stacks|) && i < |p.stacks| && s.nodes[i].Some? && s.specs[i].Some?
    ensures r.Sized(|p.stacks|)
  {
    var spec, node := s.specs[i].value, s.nodes[i].value;
    var id := if p.copyBack && spec.id.Some? then spec.id.value else node.id;
    s.(nodes := s.nodes[i := Some(node.(id := id))],
       ids := s.ids[i := Some(id)],
       done := s.done[i := true])
  }

  /** Slots `0..n` are filled and stay filled. */
  predicate Filled(s: State, n: nat) {
    && n <= |s.nodes| == |s.specs|
    && forall j :: 0 <= j < n ==> s.nodes[j].Some? && s.specs[j].Some?
  }

  /** Runs mutator `m` of builder `i`; `Base` is the closure that fills the slot. */
  function Run(p: Plan, i: nat, m: Mutator, s: State): (r: (Option<Error>, State))
    requires i < |p.stacks| && s.Sized(|p.stacks|) && Filled(s, i)
    ensures r.1.Sized(|p.stacks|)
    ensures Filled(r.1, i)
    ensures forall n: nat :: Filled(s, n) ==> Filled(r.1, n)
    decreases |p.stacks| - i, m, 0
  {
    match m
    case Wrapped(_, hook, next) => RunHook(p, i, hook, next, s)
    case Base =>
      if !Check(s.secrets[i]) then (Some(CheckFailed), s)
      else
        var s1 := Fill(p, i, s);
        assert Filled(s1, i + 1) && forall n: nat :: Filled(s, n) ==> Filled(s1, n);
        var (err, s2) := if i + 1 < |p.stacks|
                         then Run(p, i + 1, Chain(p.stacks[i + 1], 0), s1)
                         else SendBatch(p, s1);
        if err.Some? then (err, s2) else (None, Finish(p, i, s2))
  }

  function RunHook(p: Plan, i: nat, hook: Hook, next: Mutator, s: State): (r: (Option<Error>, State))
    requires i < |p.stacks| && s.Sized(|p.stacks|) && Filled(s, i)
    ensures r.1.Sized(|p.stacks|)
    ensures Filled(r.1, i)
    ensures forall n: nat :: Filled(s, n) ==> Filled(r.1, n)
    decreases |p.stacks| - i, next, 1
  {
    match hook
    case Pass => Run(p, i, next, s)
    case Amend(payload) => Run(p, i, next, s.(secrets := s.secrets[i := payload]))
    case FailBefore(tag) => (Some(HookFailed(tag)), s)
    case FailAfter(tag) =>
      var (err, s1) := Run(p, i, next, s);
      (if err.Some? then err else Some(HookFailed(tag)), s1)
    case Retry =>
      var (err, s1) := Run(p, i, next, s);
      if err.Some? then Run(p, i, next, s1) else (err, s1)
    case Recover => (None, Run(p, i, next, s).1)
    case Skip => (None, s)
  }

  /** The whole chain, from the state in which `Save` has built it. */
  function RunAll(p: Plan, s: State): (r: (Option<Error>, State))
    requires s.Sized(|p.stacks|)
    ensures r.1.Sized(|p.stacks|)
  {
    if |p.stacks| == 0 then (None, s) else Run(p, 0, Chain(p.stacks[0], 0), s)
  }

  /** What each kind of hook makes of a single builder whose secret is present: the outcome,
      the batches that are sent, and whether it ends up marked. */
  lemma OneBuilder(p: Plan, h: Hook, s: State)
    requires p.stacks == [[h]] && s.Sized(1) && s.secrets[0].Some? && s.secrets[0].value != "" && !s.done[0]
    requires h.Amend? ==> h.payload.Some? && h.payload.value != ""
    ensures var (err, s') := RunAll(p, s);
            var c := |s.batches|;
            match h
            case FailBefore(tag) => err == Some(HookFailed(tag)) && s' == s
            case Skip => err == None && s' == s
            case Retry =>
              && err == (if p.accept(c).Some? then p.accept(c + 1) else None)
              && |s'.batches| == c + (if p.accept(c).Some? then 2 else 1) && s'.done == [err.None?]
            case Recover => err == None && |s'.batches| == c + 1 && s'.done == [p.accept(c).None?]
            case FailAfter(tag) =>
              && err == (if p.accept(c).Some? then p.accept(c) else Some(HookFailed(tag)))
              && |s'.batches| == c + 1 && s'.done == [p.accept(c).None?]
            case _ => err == p.accept(c) && |s'.batches| == c + 1 && s'.done == [err.None?]
  {
    assert Chain(p.stacks[0], 0) == Wrapped(0, h, Base);
    assert RunAll(p, s) == RunHook(p, 0, h, Base, s);
    var s1 := if h.Amend? then s.(secrets := s.secrets[0 := h.payload]) else s;
    OneClosure(p, s1);
    if h.Retry? && p.accept(|s.batches|).Some? {
      OneClosure(p, Run(p, 0, Base, s1).1);
    }
  }

  lemma OneClosure(p: Plan, s: State)
    requires |p.stacks| == 1 && s.Sized(1) && Check(s.secrets[0]) && !s.done[0]
    ensures var (err, s') := Run(p, 0, Base, s);
            && err == p.accept(|s.batches|) && |s'.batches| == |s.batches| + 1
            && s'.done == [err.None?] && s'.secrets == s.secrets
  {
  }

  // ---- What stays true of every run ------------------------------------------------

  /** `finals[j]` is the secret that builder `j`'s closure will see, for `j` from `i` on,
      when the run enters builder `i` at hook `k`. */
  ghost predicate Agrees(p: Plan, i: nat, k: nat, s: State, finals: seq<Payload>) {
    && s.Sized(|p.stacks|) && |finals| == |p.stacks| && i < |p.stacks| && k <= |p.stacks[i]|
    && Amended(p.stacks[i], k, s.secrets[i]) == finals[i]
    && forall j :: i < j < |p.stacks| ==> Amended(p.stacks[j], 0, s.secrets[j]) == finals[j]
  }

  function Finals(p: Plan, s: State): (r: seq<Payload>)
    requires s.Sized(|p.stacks|)
    ensures |r| == |p.stacks|
  {
    seq(|p.stacks|, j requires 0 <= j < |p.stacks| => Amended(p.stacks[j], 0, s.secrets[j]))
  }

  /** The state in which hook `k` of builder `i` calls its inner mutator. */
  function Entering(p: Plan, i: nat, k: nat, s: State): (r: State)
    requires i < |p.stacks| && k < |p.stacks[i]| && s.Sized(|p.stacks|) && Filled(s, i)
    ensures r.Sized(|p.stacks|) && Filled(r, i)
  {
    if p.stacks[i][k].Amend? then s.(secrets := s.secrets[i := p.stacks[i][k].payload]) else s
  }

  /** A run, or part of one, leaves the secrets such that running again sees the same. */
  lemma {:induction false} AmendsAreStable(p: Plan, i: nat, k: nat, s: State, finals: seq<Payload>)
    requires Agrees(p, i, k, s, finals) && Filled(s, i)
    ensures Agrees(p, i, k, Run(p, i, Chain(p.stacks[i], k), s).1, finals)
    decreases |p.stacks| - i, |p.stacks[i]| - k
  {
    if k < |p.stacks[i]| {
      var next := Chain(p.stacks[i], k + 1);
      var s1 := Entering(p, i, k, s);
      AmendsAreStable(p, i, k + 1, s1, finals);
      AmendsAreStable(p, i, k + 1, Run(p, i, next, s1).1, finals);
    } else if Check(s.secrets[i]) && i + 1 < |p.stacks| {
      AmendsAreStable(p, i + 1, 0, Fill(p, i, s), finals);
      EarlierSecretsKept(p, i + 1, 0, Fill(p, i, s));
    }
  }

  /** Running builder `i` touches the secrets and the marks of no earlier builder. */
  lemma {:induction false} EarlierSecretsKept(p: Plan, i: nat, k: nat, s: State)
    requires s.Sized(|p.stacks|) && i < |p.stacks| && k <= |p.stacks[i]| && Filled(s, i)
    ensures var s' := Run(p, i, Chain(p.stacks[i], k), s).1;
            forall j :: 0 <= j < i ==> s'.secrets[j] == s.secrets[j] && s'.done[j] == s.done[j]
    decreases |p.stacks| - i, |p.stacks[i]| - k
  {
    if k < |p.stacks[i]| {
      var next := Chain(p.stacks[i], k + 1);
      var s1 := Entering(p, i, k, s);
      EarlierSecretsKept(p, i, k + 1, s1);
      EarlierSecretsKept(p, i, k + 1, Run(p, i, next, s1).1);
    } else if Check(s.secrets[i]) && i + 1 < |p.stacks| {
      EarlierSecretsKept(p, i + 1, 0, Fill(p, i, s));
    }
  }

  ghost predicate Complete(batch: seq<Option<SpecValue>>, n: nat) {
    |batch| == n && forall j :: 0 <= j < n ==> batch[j].Some?
  }

  /** `s` extends the batches of `s0` by complete ones only. */
  ghost predicate SentComplete(p: Plan, s0: State, s: State) {
    && |s0.batches| <= |s.batches| && s.batches[..|s0.batches|] == s0.batches
    && forall c :: |s0.batches| <= c < |s.batches| ==> Complete(s.batches[c], |p.stacks|)
  }

  /** Whatever the hooks do, retries and skips included, no batch is ever sent with an
      empty slot, and no sent batch is taken back. */
  lemma {:induction false} BatchesAreComplete(p: Plan, i: nat, k: nat, s: State)
    requires s.Sized(|p.stacks|) && i < |p.stacks| && k <= |p.stacks[i]| && Filled(s, i)
    ensures SentComplete(p, s, Run(p, i, Chain(p.stacks[i], k), s).1)
    decreases |p.stacks| - i, |p.stacks[i]| - k
  {
    if k < |p.stacks[i]| {
      var next := Chain(p.stacks[i], k + 1);
      var s1 := Entering(p, i, k, s);
      var s2 := Run(p, i, next, s1).1;
      BatchesAreComplete(p, i, k + 1, s1);
      BatchesAreComplete(p, i, k + 1, s2);
      SentTwice(p, s1, s2, Run(p, i, next, s2).1);
    } else if Check(s.secrets[i]) {
      var s1 := Fill(p, i, s);
      if i + 1 < |p.stacks| {
        BatchesAreComplete(p, i + 1, 0, s1);
      }
    }
  }

  lemma SentTwice(p: Plan, s0: State, s1: State, s2: State)
    requires SentComplete(p, s0, s1) && SentComplete(p, s1, s2)
    ensures SentComplete(p, s0, s2)
  {
  }

  // ---- Hooks that only observe or amend ----------------------------------------------

  /** What slot `j` holds when the batch is sent. */
  function SpecFor(p: Plan, s: State, finals: seq<Payload>, j: nat): SpecValue
    requires s.Sized(|p.stacks|) && j < |p.stacks| == |finals| && Check(finals[j])
  {
    SpecValue(if p.copyBack then None else s.ids[j], finals[j].value)
  }

  /** One batch was sent: the earlier slots as they were, the others freshly built. */
  ghost predicate SentOnce(p: Plan, i: nat, s: State, finals: seq<Payload>, s': State)
    requires s.Sized(|p.stacks|) && |finals| == |p.stacks|
    requires forall j :: i <= j < |finals| ==> Check(finals[j])
  {
    && |s'.batches| == |s.batches| + 1 && s'.batches[..|s.batches|] == s.batches
    && var b := s'.batches[|s.batches|];
       |b| == |p.stacks| && forall j :: 0 <= j < |b| ==>
         b[j] == if j < i then s.specs[j] else Some(SpecFor(p, s, finals, j))
  }

  /** The id a saved node carries. */
  function SavedId(p: Plan, s: State, j: nat): Key
    requires s.Sized(|p.stacks|) && j < |p.stacks|
  {
    if p.copyBack then p.rowId(|s.batches|, j) else s.ids[j].GetOr(0)
  }

  ghost predicate MarkedFrom(p: Plan, i: nat, s: State, finals: seq<Payload>, s': State)
    requires s.Sized(|p.stacks|) && s'.Sized(|p.stacks|) && |finals| == |p.stacks|
  {
    forall j :: 0 <= j < |p.stacks| ==>
      if j < i then s'.done[j] == s.done[j] && s'.nodes[j] == s.nodes[j]
      else s'.done[j] && finals[j].Some?
           && s'.ids[j] == Some(SavedId(p, s, j))
           && s'.nodes[j] == Some(NodeValue(SavedId(p, s, j), finals[j].value))
  }

  /** One batch and all or nothing marked when the checks pass; nothing at all otherwise. */
  ghost predicate Observed(p: Plan, i: nat, s: State, finals: seq<Payload>, err: Option<Error>, s': State)
    requires s.Sized(|p.stacks|) && s'.Sized(|p.stacks|) && |finals| == |p.stacks|
  {
    if forall j :: i <= j < |finals| ==> Check(finals[j]) then
      && SentOnce(p, i, s, finals, s')
      && err == p.accept(|s.batches|)
      && (if err.None? then MarkedFrom(p, i, s, finals, s') else s'.done == s.done)
      && (err.None? ==> s'.specs == Stamped(p, |s.batches|, s'.batches[|s.batches|]))
    else
      err == Some(CheckFailed) && s'.batches == s.batches && s'.done == s.done
  }

  lemma {:induction false} ObservedRun(p: Plan, i: nat, k: nat, s: State, finals: seq<Payload>)
    requires Agrees(p, i, k, s, finals) && Filled(s, i)
    requires forall stack <- p.stacks :: AllTransparent(stack)
    ensures var (err, s') := Run(p, i, Chain(p.stacks[i], k), s);
            Observed(p, i, s, finals, err, s')
    decreases |p.stacks| - i, |p.stacks[i]| - k
  {
    if k < |p.stacks[i]| {
      assert Transparent(p.stacks[i][k]) by { assert p.stacks[i] in p.stacks; }
      var s1 := Entering(p, i, k, s);
      ObservedRun(p, i, k + 1, s1, finals);
      var (err, s') := Run(p, i, Chain(p.stacks[i], k + 1), s1);
      assert Run(p, i, Chain(p.stacks[i], k), s) == (err, s');
      SecretsDoNotMatter(p, i, s1, s, finals, err, s');
    } else if Check(s.secrets[i]) {
      var s1 := Fill(p, i, s);
      if i + 1 < |p.stacks| {
        ObservedRun(p, i + 1, 0, s1, finals);
        var (err, s') := Run(p, i + 1, Chain(p.stacks[i + 1], 0), s1);
        ObservedClosure(p, i, s, finals, err, s');
      } else {
        var (err, s') := SendBatch(p, s1);
        ObservedClosure(p, i, s, finals, err, s');
      }
    }
  }

  lemma SecretsDoNotMatter(p: Plan, i: nat, s1: State, s: State, finals: seq<Payload>, err: Option<Error>, s': State)
    requires s.Sized(|p.stacks|) && s'.Sized(|p.stacks|) && |finals| == |p.stacks|
    requires s1 == s.(secrets := s1.secrets) && |s1.secrets| == |s.secrets|
    requires Observed(p, i, s1, finals, err, s')
    ensures Observed(p, i, s, finals, err, s')
  {
  }

  lemma ObservedClosure(p: Plan, i: nat, s: State, finals: seq<Payload>, err: Option<Error>, s2: State)
    requires i < |p.stacks| && s.Sized(|p.stacks|) && s2.Sized(|p.stacks|) && |finals| == |p.stacks|
    requires Check(s.secrets[i]) && finals[i] == s.secrets[i] && Filled(s2, i + 1)
    requires var s1 := Fill(p, i, s);
             if i + 1 < |p.stacks| then Observed(p, i + 1, s1, finals, err, s2) else (err, s2) == SendBatch(p, s1)
    ensures Observed(p, i, s, finals, err, if err.Some? then s2 else Finish(p, i, s2))
  {
  }

  /** Hooks that call the next mutator once and pass results through: when every check
      passes there is exactly one batch call, with every slot filled in builder order,
      and all builders are marked or none according to its result. When a check fails
      there is no batch call and no builder is marked. */
  lemma ObservedSave(p: Plan, s: State)
    requires s.Sized(|p.stacks|) && |p.stacks| > 0
    requires forall stack <- p.stacks :: AllTransparent(stack)
    ensures var (err, s') := RunAll(p, s);
            var finals := Finals(p, s);
            if forall j :: 0 <= j < |finals| ==> Check(finals[j]) then
              && s'.batches == s.batches + [seq(|p.stacks|, j requires 0 <= j < |p.stacks| =>
                                              Some(SpecFor(p, s, finals, j)))]
              && err == p.accept(|s.batches|)
              && (if err.None? then MarkedFrom(p, 0, s, finals, s') else s'.done == s.done)
            else
              err == Some(CheckFailed) && s'.batches == s.batches && s'.done == s.done
  {
    var finals := Finals(p, s);
    ObservedRun(p, 0, 0, s, finals);
    if forall j :: 0 <= j < |finals| ==> Check(finals[j]) {
      var s' := RunAll(p, s).1;
      var b := seq(|p.stacks|, j requires 0 <= j < |p.stacks| => Some(SpecFor(p, s, finals, j)));
      assert s'.batches[|s.batches|] == b;
      assert s'.batches == s'.batches[..|s.batches|] + [s'.batches[|s.batches|]];
    }
  }

  predicate AllPass(hooks: seq<Hook>) {
    forall hook <- hooks :: hook.Pass?
  }

  /** With hooks that do nothing else than pass on, a missing or empty secret anywhere means
      that nothing is sent and nobody is marked, and otherwise one batch is sent that holds
      the secrets in builder order. */
  lemma PlainSave(p: Plan, s: State)
    requires s.Sized(|p.stacks|) && |p.stacks| > 0 && forall stack <- p.stacks :: AllPass(stack)
    ensures var (err, s') := RunAll(p, s);
            if exists j :: 0 <= j < |p.stacks| && (s.secrets[j] == None || s.secrets[j] == Some("")) then
              err == Some(CheckFailed) && s'.batches == s.batches && s'.done == s.done
            else
              && |s'.batches| == |s.batches| + 1 && |s'.batches[|s.batches|]| == |p.stacks|
              && (forall j :: 0 <= j < |p.stacks| ==>
                    s'.batches[|s.batches|][j]
                    == Some(SpecValue(if p.copyBack then None else s.ids[j], s.secrets[j].value)))
              && err == p.accept(|s.batches|)
              && (forall j :: 0 <= j < |p.stacks| ==> s'.done[j] == (s.done[j] || err.None?))
  {
    assert forall stack <- p.stacks :: AllTransparent(stack);
    ObservedSave(p, s);
    forall j | 0 <= j < |p.stacks| ensures Finals(p, s)[j] == s.secrets[j] {
      assert p.stacks[j] in p.stacks;
      PassAmendsNothing(p.stacks[j], 0, s.secrets[j]);
    }
    var (err, s') := RunAll(p, s);
    var finals := Finals(p, s);
    if forall j :: 0 <= j < |finals| ==> Check(finals[j]) {
      assert if err.None? then MarkedFrom(p, 0, s, finals, s') else s'.done == s.done;
    }
  }

  lemma {:induction false} PassAmendsNothing(hooks: seq<Hook>, k: nat, payload: Payload)
    requires k <= |hooks| && AllPass(hooks)
    ensures Amended(hooks, k, payload) == payload
    decreases |hooks| - k
  {
    if k < |hooks| {
      assert hooks[k] in hooks;
      PassAmendsNothing(hooks, k + 1, payload);
    }
  }

  // ---- Hooks that may fail, retry, recover or skip -------------------------------------

  /** Entering builder `i` at hook `k`, the run gets past builder `i`'s check. */
  predicate Opens(p: Plan, finals: seq<Payload>, i: nat, k: nat)
    requires i < |p.stacks| == |finals| && k <= |p.stacks[i]|
  {
    Reach(p.stacks[i], k) == |p.stacks[i]| && Check(finals[i])
  }

  /** No stack that the run reaches beyond builder `i` swallows errors. */
  predicate Safe(p: Plan, finals: seq<Payload>, i: nat, k: nat)
    requires i < |p.stacks| == |finals| && k <= |p.stacks[i]|
    decreases |p.stacks| - i
  {
    Opens(p, finals, i, k) && i + 1 < |p.stacks|
    ==> !Swallows(p.stacks[i + 1], 0) && Safe(p, finals, i + 1, 0)
  }

  /** The builders marked done are the last ones of the batch. */
  ghost predicate Suffix(done: seq<bool>) {
    forall i, j :: 0 <= i < j < |done| && done[i] ==> done[j]
  }

  ghost predicate Accepted(p: Plan, s: State, s': State) {
    exists c :: |s.batches| <= c < |s'.batches| && p.accept(c).None?
  }

  /** Every builder from `i` on is marked, and everything comes from the last batch call. */
  ghost predicate SavedBy(p: Plan, i: nat, s: State, s': State)
    requires s.Sized(|p.stacks|) && s'.Sized(|p.stacks|)
  {
    var c := |s'.batches| - 1;
    && |s.batches| <= c && p.accept(c).None?
    && (forall j :: i <= j < |p.stacks| ==> s'.done[j] && s'.nodes[j].Some? && s'.ids[j] == Some(s'.nodes[j].value.id))
    && (p.copyBack ==>
          && (forall j :: 0 <= j < |p.stacks| ==> s'.specs[j].Some? && s'.specs[j].value.id == Some(p.rowId(c, j)))
          && (forall j :: i <= j < |p.stacks| ==> s'.nodes[j].value.id == p.rowId(c, j)))
  }

  /** What a safe run, or part of one, keeps. */
  ghost predicate Progress(p: Plan, s: State, s': State) {
    Suffix(s'.done) && |s.batches| <= |s'.batches| && (s'.done == s.done || Accepted(p, s, s'))
  }

  lemma ProgressTwice(p: Plan, s: State, s1: State, s2: State)
    requires Progress(p, s, s1) && Progress(p, s1, s2)
    ensures Progress(p, s, s2)
  {
  }

  /** A reported success comes from the last batch call, whatever was marked before. */
  lemma {:induction false} SavedRun(p: Plan, i: nat, k: nat, s: State, finals: seq<Payload>)
    requires Agrees(p, i, k, s, finals) && Filled(s, i) && Safe(p, finals, i, k)
    ensures var (err, s') := Run(p, i, Chain(p.stacks[i], k), s);
            |s.batches| <= |s'.batches| && (err.None? && !Swallows(p.stacks[i], k) ==> SavedBy(p, i, s, s'))
    decreases |p.stacks| - i, |p.stacks[i]| - k
  {
    if k < |p.stacks[i]| {
      var hook := p.stacks[i][k];
      if !hook.FailBefore? && !hook.Skip? {
        var s1 := Entering(p, i, k, s);
        SavedRun(p, i, k + 1, s1, finals);
        if hook.Retry? {
          AmendsAreStable(p, i, k + 1, s1, finals);
          SavedRun(p, i, k + 1, Run(p, i, Chain(p.stacks[i], k + 1), s1).1, finals);
        }
      }
    } else if Check(s.secrets[i]) {
      SavedClosure(p, i, s, finals);
    }
  }

  lemma {:induction false} SavedClosure(p: Plan, i: nat, s: State, finals: seq<Payload>)
    requires i < |p.stacks|
    requires var k := |p.stacks[i]|; Agrees(p, i, k, s, finals) && Filled(s, i) && Safe(p, finals, i, k)
    requires Check(s.secrets[i])
    ensures var (err, s') := Run(p, i, Base, s);
            |s.batches| <= |s'.batches| && (err.None? ==> SavedBy(p, i, s, s'))
    decreases |p.stacks| - i, 0, 0
  {
    var s1 := Fill(p, i, s);
    if i + 1 < |p.stacks| {
      SavedRun(p, i + 1, 0, s1, finals);
    }
    var (err, s2) := if i + 1 < |p.stacks| then Run(p, i + 1, Chain(p.stacks[i + 1], 0), s1) else SendBatch(p, s1);
    if err.None? {
      FinishSaves(p, i, s1, s2);
    }
  }

  lemma FinishSaves(p: Plan, i: nat, s: State, s': State)
    requires s.Sized(|p.stacks|) && s'.Sized(|p.stacks|) && i < |p.stacks| && Filled(s', i + 1)
    requires SavedBy(p, i + 1, s, s')
    ensures SavedBy(p, i, s, Finish(p, i, s'))
  {
  }

  lemma {:induction false} SafeRun(p: Plan, i: nat, k: nat, s: State, finals: seq<Payload>)
    requires Agrees(p, i, k, s, finals) && Filled(s, i) && Safe(p, finals, i, k) && Suffix(s.done)
    ensures var (err, s') := Run(p, i, Chain(p.stacks[i], k), s);
            Progress(p, s, s') && (err.None? && !Swallows(p.stacks[i], k) ==> SavedBy(p, i, s, s'))
    decreases |p.stacks| - i, |p.stacks[i]| - k
  {
    SavedRun(p, i, k, s, finals);
    if k < |p.stacks[i]| {
      var hook := p.stacks[i][k];
      if !hook.FailBefore? && !hook.Skip? {
        var s1 := Entering(p, i, k, s);
        SafeRun(p, i, k + 1, s1, finals);
        if hook.Retry? {
          var s2 := Run(p, i, Chain(p.stacks[i], k + 1), s1).1;
          AmendsAreStable(p, i, k + 1, s1, finals);
          SafeRun(p, i, k + 1, s2, finals);
          ProgressTwice(p, s1, s2, Run(p, i, Chain(p.stacks[i], k + 1), s2).1);
        }
      }
    } else if Check(s.secrets[i]) {
      SafeClosure(p, i, s, finals);
    }
  }

  lemma {:induction false} SafeClosure(p: Plan, i: nat, s: State, finals: seq<Payload>)
    requires i < |p.stacks|
    requires var k := |p.stacks[i]|; Agrees(p, i, k, s, finals) && Filled(s, i) && Safe(p, finals, i, k)
    requires Suffix(s.done) && Check(s.secrets[i])
    ensures Progress(p, s, Run(p, i, Base, s).1)
    decreases |p.stacks| - i, 0, 0
  {
    var s1 := Fill(p, i, s);
    if i + 1 < |p.stacks| {
      SafeRun(p, i + 1, 0, s1, finals);
    }
    var (err, s2) := if i + 1 < |p.stacks| then Run(p, i + 1, Chain(p.stacks[i + 1], 0), s1) else SendBatch(p, s1);
    if err.None? {
      FinishKeeps(p, i, s1, s2);
    }
  }

  /** Marking the builder extends the suffix that the inner call has saved. */
  lemma FinishKeeps(p: Plan, i: nat, s: State, s': State)
    requires s.Sized(|p.stacks|) && s'.Sized(|p.stacks|) && i < |p.stacks| && Filled(s', i + 1)
    requires Progress(p, s, s') && SavedBy(p, i + 1, s, s')
    ensures Progress(p, s, Finish(p, i, s'))
  {
  }

  /** Faithful saves: the marked builders form a suffix, which is empty unless a batch
      call was accepted, and a reported success comes from the last batch call. */
  lemma SafeSave(p: Plan, s: State)
    requires s.Sized(|p.stacks|) && |p.stacks| > 0 && !(true in s.done)
    requires Safe(p, Finals(p, s), 0, 0)
    ensures var (err, s') := RunAll(p, s);
            && Suffix(s'.done)
            && (true in s'.done ==> Accepted(p, s, s'))
            && (err.None? && !Swallows(p.stacks[0], 0) ==> SavedBy(p, 0, s, s'))
  {
    SafeRun(p, 0, 0, s, Finals(p, s));
  }

  // ---- Ids that the builders bring ---------------------------------------------------------

  /** Ids come from the builders, and every builder has one. */
  ghost predicate Keyed(p: Plan, s: State) {
    !p.copyBack && s.Sized(|p.stacks|) && forall j :: 0 <= j < |p.stacks| ==> s.ids[j].Some?
  }

  /** The slots below `n` hold their builders' ids. */
  ghost predicate SlotsKeyed(s: State, n: nat) {
    && Filled(s, n) && n <= |s.ids|
    && forall j :: 0 <= j < n ==> Some(s.nodes[j].value.id) == s.ids[j] == s.specs[j].value.id
  }

  /** Every batch from number `c` on has the builders' ids in order. */
  ghost predicate BatchesKeyed(s: State, c: nat) {
    forall b :: c <= b < |s.batches| ==>
      |s.batches[b]| == |s.ids|
      && forall j :: 0 <= j < |s.ids| ==> s.batches[b][j].Some? && s.batches[b][j].value.id == s.ids[j]
  }

  /** From builder `i` on: the ids stay, keyed slots stay keyed, and new batches are keyed. */
  ghost predicate StaysKeyed(i: nat, s: State, s': State) {
    && s'.ids == s.ids && |s.batches| <= |s'.batches| && s'.batches[..|s.batches|] == s.batches
    && BatchesKeyed(s', |s.batches|)
    && forall n: nat :: i <= n && SlotsKeyed(s, n) ==> SlotsKeyed(s', n)
  }

  lemma KeyedTwice(i: nat, s: State, s1: State, s2: State)
    requires StaysKeyed(i, s, s1) && StaysKeyed(i, s1, s2)
    ensures StaysKeyed(i, s, s2)
  {
  }

  /** Whatever the hooks and the database do, no builder's id changes, every node gets its
      builder's id, and so does its row in every batch. */
  lemma {:induction false} IdsAreKept(p: Plan, i: nat, k: nat, s: State)
    requires Keyed(p, s) && i < |p.stacks| && k <= |p.stacks[i]| && SlotsKeyed(s, i)
    ensures StaysKeyed(i, s, Run(p, i, Chain(p.stacks[i], k), s).1)
    decreases |p.stacks| - i, |p.stacks[i]| - k
  {
    if k < |p.stacks[i]| {
      var next := Chain(p.stacks[i], k + 1);
      var s1 := Entering(p, i, k, s);
      assert StaysKeyed(i, s, s1);
      IdsAreKept(p, i, k + 1, s1);
      var s2 := Run(p, i, next, s1).1;
      IdsAreKept(p, i, k + 1, s2);
      KeyedTwice(i, s, s1, s2);
      KeyedTwice(i, s, s2, Run(p, i, next, s2).1);
    } else if Check(s.secrets[i]) {
      KeyedClosure(p, i, s);
    }
  }

  lemma {:induction false} KeyedClosure(p: Plan, i: nat, s: State)
    requires Keyed(p, s) && i < |p.stacks| && SlotsKeyed(s, i) && Check(s.secrets[i])
    ensures StaysKeyed(i, s, Run(p, i, Base, s).1)
    decreases |p.stacks| - i, 0, 0
  {
    var s1 := Fill(p, i, s);
    assert SlotsKeyed(s1, i + 1);
    assert forall n: nat :: SlotsKeyed(s, n) ==> SlotsKeyed(s1, n);
    if i + 1 < |p.stacks| {
      IdsAreKept(p, i + 1, 0, s1);
    } else {
      assert Stamped(p, |s1.batches|, s1.specs) == s1.specs;
    }
  }

  /** After a trusted success every node, and its row in the last batch, has the id its
      builder brought. */
  lemma KeyedSave(p: Plan, s: State)
    requires Keyed(p, s) && |p.stacks| > 0 && Safe(p, Finals(p, s), 0, 0) && !Swallows(p.stacks[0], 0)
    ensures var (err, s') := RunAll(p, s);
            err.None? ==>
              && |s'.batches| > |s.batches| && |s'.batches[|s'.batches| - 1]| == |p.stacks|
              && forall j :: 0 <= j < |p.stacks| ==>
                   var row := s'.batches[|s'.batches| - 1][j];
                   && s'.nodes[j].Some? && s'.nodes[j].value.id == s.ids[j].value
                   && row.Some? && row.value.id == s.ids[j]
  {
    IdsAreKept(p, 0, 0, s);
    SavedRun(p, 0, 0, s, Finals(p, s));
  }

  // ---- Swallowing hooks break the suffix --------------------------------------------

  /** Entering builder `i` at hook `k`, the run gets as far as entering builder `j`. */
  predicate Leads(p: Plan, finals: seq<Payload>, i: nat, k: nat, j: nat)
    requires i < |p.stacks| == |finals| && k <= |p.stacks[i]|
    decreases |p.stacks| - i
  {
    i < j < |p.stacks| && Opens(p, finals, i, k) && (i + 1 == j || Leads(p, finals, i + 1, 0, j))
  }

  /** An unsafe run reaches a last swallowing stack. */
  lemma {:induction false} LastSwallower(p: Plan, finals: seq<Payload>, i: nat, k: nat) returns (j: nat)
    requires i < |p.stacks| == |finals| && k <= |p.stacks[i]| && !Safe(p, finals, i, k)
    ensures Leads(p, finals, i, k, j) && Swallows(p.stacks[j], 0) && Safe(p, finals, j, 0)
    decreases |p.stacks| - i
  {
    if Safe(p, finals, i + 1, 0) {
      j := i + 1;
    } else {
      j := LastSwallower(p, finals, i + 1, 0);
    }
  }

  ghost predicate Rejects(p: Plan) {
    forall c :: p.accept(c) == Some(DatabaseFailed)
  }

  /** With a database that rejects everything, a safe run marks nobody and reports
      success exactly when the entered stack swallows. */
  lemma {:induction false} RejectedRun(p: Plan, i: nat, k: nat, s: State, finals: seq<Payload>)
    requires Agrees(p, i, k, s, finals) && Filled(s, i) && Safe(p, finals, i, k) && Rejects(p)
    ensures var (err, s') := Run(p, i, Chain(p.stacks[i], k), s);
            s'.done == s.done && (err.None? <==> Swallows(p.stacks[i], k))
    decreases |p.stacks| - i, |p.stacks[i]| - k
  {
    if k < |p.stacks[i]| {
      var hook, next := p.stacks[i][k], Chain(p.stacks[i], k + 1);
      if !hook.FailBefore? && !hook.Skip? {
        var s1 := Entering(p, i, k, s);
        RejectedRun(p, i, k + 1, s1, finals);
        AmendsAreStable(p, i, k + 1, s1, finals);
        RejectedRun(p, i, k + 1, Run(p, i, next, s1).1, finals);
      }
    } else if Check(s.secrets[i]) && i + 1 < |p.stacks| {
      RejectedRun(p, i + 1, 0, Fill(p, i, s), finals);
    }
  }

  /** The builder before a swallowing stack is marked although the next one is not. */
  lemma {:induction false} GapRun(p: Plan, i: nat, k: nat, s: State, finals: seq<Payload>, j: nat)
    requires Agrees(p, i, k, s, finals) && Filled(s, i) && Rejects(p)
    requires Leads(p, finals, i, k, j) && Swallows(p.stacks[j], 0) && Safe(p, finals, j, 0)
    requires !s.done[j]
    ensures var s' := Run(p, i, Chain(p.stacks[i], k), s).1;
            s'.done[j - 1] && !s'.done[j]
    decreases |p.stacks| - i, |p.stacks[i]| - k
  {
    if k < |p.stacks[i]| {
      var next := Chain(p.stacks[i], k + 1);
      var s1 := Entering(p, i, k, s);
      GapRun(p, i, k + 1, s1, finals, j);
      AmendsAreStable(p, i, k + 1, s1, finals);
      GapRun(p, i, k + 1, Run(p, i, next, s1).1, finals, j);
    } else {
      var s1 := Fill(p, i, s);
      if i + 1 == j {
        RejectedRun(p, j, 0, s1, finals);
      } else {
        GapRun(p, i + 1, 0, s1, finals, j);
      }
    }
  }

  /** The marks are a suffix whatever the database answers, exactly when no stack that
      the run reaches below the first builder swallows errors. */
  lemma SuffixIff(p: Plan, s: State)
    requires s.Sized(|p.stacks|) && |p.stacks| > 0 && !(true in s.done)
    ensures (forall accept :: Suffix(RunAll(p.(accept := accept), s).1.done))
            <==> Safe(p, Finals(p, s), 0, 0)
  {
    var finals := Finals(p, s);
    if Safe(p, finals, 0, 0) {
      forall accept ensures Suffix(RunAll(p.(accept := accept), s).1.done) {
        var q := p.(accept := accept);
        SafeDoesNotAsk(p, q, finals, 0, 0);
        SafeSave(q, s);
      }
    } else {
      var accept: nat -> Option<Error> := _ => Some(DatabaseFailed);
      var q := p.(accept := accept);
      SafeDoesNotAsk(p, q, finals, 0, 0);
      var j := LastSwallower(q, finals, 0, 0);
      GapRun(q, 0, 0, s, finals, j);
      assert !Suffix(RunAll(q, s).1.done);
    }
  }

  lemma {:induction false} SafeDoesNotAsk(p: Plan, q: Plan, finals: seq<Payload>, i: nat, k: nat)
    requires i < |p.stacks| == |finals| && k <= |p.stacks[i]| && q.stacks == p.stacks
    ensures Safe(p, finals, i, k) == Safe(q, finals, i, k)
    decreases |p.stacks| - i
  {
    if i + 1 < |p.stacks| {
      SafeDoesNotAsk(p, q, finals, i + 1, 0);
    }
  }
}
