/** `withHooks` of the generated client: a stack of hooks wrapped around one operation. */
module Hooks {
  import opened Prelude

  /** The field of a mutation that hooks may set or clear. */
  type Payload = Option<string>

  datatype Error =
    | CheckFailed
    | HookFailed(tag: string)
    | DatabaseFailed
    | UninitializedHook

  /** What a hook does with the mutator it wraps. */
  datatype Hook =
    | Pass                    // calls the next mutator and hands its result on
    | Amend(payload: Payload) // changes the mutation, then behaves like Pass
    | FailBefore(tag: string) // fails without calling the next mutator
    | FailAfter(tag: string)  // calls the next mutator and fails even if that succeeded
    | Retry                   // calls the next mutator again if the first call failed
    | Recover                 // calls the next mutator and reports success in any case
    | Skip                    // reports success without calling the next mutator

  /** The hook calls its inner mutator exactly once and hands the result on. */
  predicate Transparent(h: Hook) {
    h.Pass? || h.Amend?
  }

  predicate AllTransparent(hooks: seq<Hook>) {
    forall h <- hooks :: Transparent(h)
  }

  /** Observable effects: hook `k` starts, hook `k` ends, the operation runs. */
  datatype Event = Before(k: nat) | After(k: nat) | Operation(payload: Payload)

  /** The closure that the downward loop builds: hook `k` around `next`. */
  datatype Mutator = Base | Wrapped(k: nat, hook: Hook, next: Mutator)

  datatype CallState = CallState(payload: Payload, trace: seq<Event>, calls: nat) {
    function Log(e: Event): CallState {
      this.(trace := trace + [e])
    }
  }

  /** The mutator of the hooks from position `k` on. */
  function Chain(hooks: seq<Hook>, k: nat): Mutator
    requires k <= |hooks|
    decreases |hooks| - k
  {
    if k == |hooks| then Base else Wrapped(k, hooks[k], Chain(hooks, k + 1))
  }

  /** Runs a mutator; `op(c)` is the outcome of the operation's call number `c`. */
  function RunStack(op: nat -> Option<Error>, m: Mutator, s: CallState): (Option<Error>, CallState)
    decreases m, 0
  {
    match m
    case Base => (op(s.calls), s.(calls := s.calls + 1).Log(Operation(s.payload)))
    case Wrapped(k, hook, next) =>
      var s1 := s.Log(Before(k));
      var (err, s2) := RunStackHook(op, hook, next, s1);
      (err, s2.Log(After(k)))
  }

  function RunStackHook(op: nat -> Option<Error>, hook: Hook, next: Mutator, s: CallState): (Option<Error>, CallState)
    decreases next, 1
  {
    match hook
    case Pass => RunStack(op, next, s)
    case Amend(payload) => RunStack(op, next, s.(payload := payload))
    case FailBefore(tag) => (Some(HookFailed(tag)), s)
    case FailAfter(tag) =>
      var (err, s1) := RunStack(op, next, s);
      (if err.Some? then err else Some(HookFailed(tag)), s1)
    case Retry =>
      var (err, s1) := RunStack(op, next, s);
      if err.Some? then RunStack(op, next, s1) else (err, s1)
    case Recover => (None, RunStack(op, next, s).1)
    case Skip => (None, s)
  }

  /** One builder operation under `withHooks`. */
  class Call {
    var payload: Payload
    var trace: seq<Event>
    var calls: nat
    const op: nat -> Option<Error>

    constructor (payload: Payload, op: nat -> Option<Error>)
      ensures View() == CallState(payload, [], 0) && this.op == op
    {
      this.payload, this.trace, this.calls, this.op := payload, [], 0, op;
    }

    ghost function View(): CallState
      reads this
    {
      CallState(payload, trace, calls)
    }

    method Exec() returns (err: Option<Error>)
      modifies this
      ensures (err, View()) == RunStack(op, Base, old(View()))
    {
      err := op(calls);
      calls := calls + 1;
      trace := trace + [Operation(payload)];
    }

    method Mutate(m: Mutator) returns (err: Option<Error>)
      modifies this
      ensures (err, View()) == RunStack(op, m, old(View()))
      decreases m
    {
      match m
      case Base => err := Exec();
      case Wrapped(k, hook, next) =>
        trace := trace + [Before(k)];
        match hook {
          case Pass => err := Mutate(next);
          case Amend(p) =>
            payload := p;
            err := Mutate(next);
          case FailBefore(tag) => err := Some(HookFailed(tag));
          case FailAfter(tag) =>
            err := Mutate(next);
            if err.None? { err := Some(HookFailed(tag)); }
          case Retry =>
            err := Mutate(next);
            if err.Some? { err := Mutate(next); }
          case Recover =>
            err := Mutate(next);
            err := None;
          case Skip => err := None;
        }
        trace := trace + [After(k)];
    }

    /** A nil hook is `None`. Nothing runs when one is found while wrapping. */
    method WithHooks(hooks: seq<Option<Hook>>) returns (err: Option<Error>)
      modifies this
      ensures (exists k :: 0 <= k < |hooks| && hooks[k].None?)
              ==> err == Some(UninitializedHook) && View() == old(View())
      ensures (forall k :: 0 <= k < |hooks| ==> hooks[k].Some?)
              ==> (err, View()) == RunStack(op, Chain(Hooks(hooks), 0), old(View()))
    {
      if |hooks| == 0 {
        err := Exec();
        return;
      }
      var mut := Base;
      var i := |hooks|;
      while i > 0
        invariant 0 <= i <= |hooks|
        invariant forall k :: i <= k < |hooks| ==> hooks[k].Some?
        invariant |Hooks(hooks)| == |hooks|
        invariant mut == Chain(Hooks(hooks), i)
        invariant View() == old(View())
      {
        i := i - 1;
        if hooks[i].None? {
          return Some(UninitializedHook);
        }
        mut := Wrapped(i, hooks[i].value, mut);
      }
      err := Mutate(mut);
    }

    /** Interceptors wrap a query in the same way; they are not checked for nil here, and
        an empty list runs the same wrapped query. */
    method WithInterceptors(inters: seq<Hook>) returns (err: Option<Error>)
      modifies this
      ensures (err, View()) == RunStack(op, Chain(inters, 0), old(View()))
    {
      var qr := Base;
      var i := |inters|;
      while i > 0
        invariant 0 <= i <= |inters|
        invariant qr == Chain(inters, i)
        invariant View() == old(View())
      {
        i := i - 1;
        qr := Wrapped(i, inters[i], qr);
      }
      err := Mutate(qr);
    }
  }

  function Hooks(hooks: seq<Option<Hook>>): (r: seq<Hook>)
    ensures |r| == |hooks|
    ensures forall k :: 0 <= k < |hooks| ==> r[k] == hooks[k].GetOr(Pass)
  {
    seq(|hooks|, k requires 0 <= k < |hooks| => hooks[k].GetOr(Pass))
  }

  // ---- One hook ------------------------------------------------------------------

  /** What each kind of hook makes of an operation: the outcome, how often the operation is
      called, and the mutation it leaves. */
  lemma OneHook(op: nat -> Option<Error>, h: Hook, s: CallState)
    ensures var (err, s') := RunStack(op, Chain([h], 0), s);
            match h
            case Pass => err == op(s.calls) && s'.calls == s.calls + 1 && s'.payload == s.payload
            case Amend(payload) => err == op(s.calls) && s'.calls == s.calls + 1 && s'.payload == payload
            case FailBefore(tag) => err == Some(HookFailed(tag)) && s'.calls == s.calls && s'.payload == s.payload
            case FailAfter(tag) =>
              && err == (if op(s.calls).Some? then op(s.calls) else Some(HookFailed(tag)))
              && s'.calls == s.calls + 1 && s'.payload == s.payload
            case Retry =>
              && err == (if op(s.calls).Some? then op(s.calls + 1) else None)
              && s'.calls == s.calls + (if op(s.calls).Some? then 2 else 1) && s'.payload == s.payload
            case Recover => err == None && s'.calls == s.calls + 1 && s'.payload == s.payload
            case Skip => err == None && s'.calls == s.calls && s'.payload == s.payload
  {
    assert Chain([h], 0) == Wrapped(0, h, Base);
  }

  // ---- How effects nest ---------------------------------------------------------

  function Befores(k: nat, n: nat): (r: seq<Event>)
    ensures |r| == if k < n then n - k else 0
    ensures forall i :: 0 <= i < |r| ==> r[i] == Before(k + i)
    decreases n - k
  {
    if k >= n then [] else [Before(k)] + Befores(k + 1, n)
  }

  function Afters(k: nat, n: nat): (r: seq<Event>)
    ensures |r| == if k < n then n - k else 0
    ensures forall i :: 0 <= i < |r| ==> r[i] == After(n - 1 - i)
    decreases n - k
  {
    if k >= n then [] else Afters(k + 1, n) + [After(k)]
  }

  /** The payload the operation sees: hooks amend it in list order. */
  function Amended(hooks: seq<Hook>, k: nat, payload: Payload): Payload
    requires k <= |hooks|
    decreases |hooks| - k
  {
    if k == |hooks| then payload
    else Amended(hooks, k + 1, if hooks[k].Amend? then hooks[k].payload else payload)
  }

  /** The first position from `k` on whose hook never calls its inner mutator. */
  function Reach(hooks: seq<Hook>, k: nat): (r: nat)
    requires k <= |hooks|
    ensures k <= r <= |hooks|
    ensures forall j :: k <= j < r ==> !hooks[j].FailBefore? && !hooks[j].Skip?
    ensures r < |hooks| ==> hooks[r].FailBefore? || hooks[r].Skip?
    decreases |hooks| - k
  {
    if k == |hooks| || hooks[k].FailBefore? || hooks[k].Skip? then k else Reach(hooks, k + 1)
  }

  /** What a hook makes of the result of its inner mutator. */
  function Settle(h: Hook, err: Option<Error>): Option<Error> {
    match h
    case FailAfter(tag) => if err.Some? then err else Some(HookFailed(tag))
    case Recover => None
    case _ => err
  }

  /** The state in which a hook hands over to its inner mutator. */
  function Entered(k: nat, h: Hook, s: CallState): CallState {
    var s1 := s.Log(Before(k));
    if h.Amend? then s1.(payload := h.payload) else s1
  }

  /** The outcome as it travels outwards from position `r` to position `k`. */
  function Outward(hooks: seq<Hook>, k: nat, r: nat, inner: Option<Error>): Option<Error>
    requires k <= r <= |hooks|
    decreases r - k
  {
    if k == r then inner
    else
      Settle(hooks[k], Outward(hooks, k + 1, r, inner))
  }

  /** The effects from position `k` on when position `r` is where the descent stops. */
  function Effects(hooks: seq<Hook>, k: nat, r: nat, payload: Payload): seq<Event>
    requires k <= r <= |hooks|
  {
    if r == |hooks|
    then Befores(k, r) + [Operation(Amended(hooks, k, payload))] + Afters(k, r)
    else Befores(k, r + 1) + Afters(k, r + 1)
  }

  /** A hook that calls its inner mutator once: what goes in and what comes out. */
  lemma OneCall(op: nat -> Option<Error>, k: nat, h: Hook, next: Mutator, s: CallState)
    requires !h.FailBefore? && !h.Skip? && !h.Retry?
    ensures var (err, s') := RunStack(op, next, Entered(k, h, s));
            RunStack(op, Wrapped(k, h, next), s) == (Settle(h, err), s'.Log(After(k)))
  {
  }

  lemma EffectsStep(hooks: seq<Hook>, k: nat, r: nat, p: Payload, q: Payload)
    requires k < r <= |hooks| && Amended(hooks, k, p) == Amended(hooks, k + 1, q)
    ensures Effects(hooks, k, r, p) == [Before(k)] + Effects(hooks, k + 1, r, q) + [After(k)]
  {
    if r == |hooks| {
      Sandwich([Before(k)], Befores(k + 1, r), [Operation(Amended(hooks, k, p))], Afters(k + 1, r), [After(k)]);
    } else {
      Sandwich([Before(k)], Befores(k + 1, r + 1), [], Afters(k + 1, r + 1), [After(k)]);
      assert Befores(k + 1, r + 1) + [] == Befores(k + 1, r + 1);
      assert Befores(k, r + 1) + [] == Befores(k, r + 1);
    }
  }

  lemma Sandwich(a: seq<Event>, b: seq<Event>, c: seq<Event>, d: seq<Event>, e: seq<Event>)
    ensures (a + b) + c + (d + e) == a + (b + c + d) + e
  {
  }

  lemma Regroup(a: seq<Event>, b: seq<Event>, c: seq<Event>, d: seq<Event>)
    ensures ((a + b) + c) + d == a + ((b + c) + d)
  {
  }

  /** The outcome at position `r`, where the descent stops. */
  function Turn(op: nat -> Option<Error>, hooks: seq<Hook>, r: nat, calls: nat): Option<Error>
    requires r == |hooks| || (r < |hooks| && (hooks[r].FailBefore? || hooks[r].Skip?))
  {
    if r == |hooks| then op(calls)
    else if hooks[r].Skip? then None
    else Some(HookFailed(hooks[r].tag))
  }

  /** For every hook list without retries the effects nest with hook 0 outermost: the
      hooks start in list order up to the first that stops, the operation runs once if
      none stops, and those that started end in reverse order. */
  lemma {:induction false} EffectsNest(op: nat -> Option<Error>, hooks: seq<Hook>, k: nat, s: CallState)
    requires k <= |hooks| && forall j :: 0 <= j < |hooks| ==> !hooks[j].Retry?
    ensures var r := Reach(hooks, k);
            var (err, s') := RunStack(op, Chain(hooks, k), s);
            && s'.trace == s.trace + Effects(hooks, k, r, s.payload)
            && s'.calls == s.calls + (if r == |hooks| then 1 else 0)
            && err == Outward(hooks, k, r, Turn(op, hooks, r, s.calls))
    decreases |hooks| - k
  {
    var r := Reach(hooks, k);
    if k < |hooks| {
      if k == r {
        assert Befores(k, k + 1) == [Before(k)] && Afters(k, k + 1) == [After(k)];
      } else {
        var s2 := Entered(k, hooks[k], s);
        EffectsNest(op, hooks, k + 1, s2);
        OneCall(op, k, hooks[k], Chain(hooks, k + 1), s);
        EffectsStep(hooks, k, r, s.payload, s2.payload);
        var inner := Effects(hooks, k + 1, r, s2.payload);
        Regroup(s.trace, [Before(k)], inner, [After(k)]);
      }
    }
  }

  /** Hooks that only observe: all start in order, one operation, all end in reverse. */
  lemma {:induction false} TransparentHooksNest(op: nat -> Option<Error>, hooks: seq<Hook>, payload: Payload)
    requires AllTransparent(hooks)
    ensures var (err, s) := RunStack(op, Chain(hooks, 0), CallState(payload, [], 0));
            && err == op(0) && s.calls == 1
            && s.trace == Befores(0, |hooks|) + [Operation(Amended(hooks, 0, payload))] + Afters(0, |hooks|)
  {
    assert forall j :: 0 <= j < |hooks| ==> Transparent(hooks[j]);
    assert Reach(hooks, 0) == |hooks|;
    EffectsNest(op, hooks, 0, CallState(payload, [], 0));
    OutwardTransparent(hooks, 0, |hooks|, op(0));
  }

  lemma {:induction false} OutwardTransparent(hooks: seq<Hook>, k: nat, r: nat, inner: Option<Error>)
    requires k <= r <= |hooks| && AllTransparent(hooks)
    ensures Outward(hooks, k, r, inner) == inner
    decreases r - k
  {
    if k < r {
      assert Transparent(hooks[k]);
      OutwardTransparent(hooks, k + 1, r, inner);
    }
  }

  // ---- Retries included -----------------------------------------------------------

  /** Reads effects while the hooks below `depth` of `n` are running: a hook may start only
      inside the one before it and end only as the innermost, and the operation runs inside
      them all. Yields how many are running at the end, if nothing is out of place. */
  function Running(n: nat, depth: nat, trace: seq<Event>): Option<nat>
    decreases |trace|
  {
    if trace == [] then Some(depth)
    else
      match trace[0]
      case Before(k) => if k == depth < n then Running(n, depth + 1, trace[1..]) else None
      case After(k) => if k + 1 == depth then Running(n, k, trace[1..]) else None
      case Operation(_) => if depth == n then Running(n, depth, trace[1..]) else None
  }

  function Operations(trace: seq<Event>): nat {
    if trace == [] then 0 else (if trace[0].Operation? then 1 else 0) + Operations(trace[1..])
  }

  lemma {:induction false} RunningAppend(n: nat, depth: nat, a: seq<Event>, b: seq<Event>)
    requires Running(n, depth, a).Some?
    ensures Running(n, depth, a + b) == Running(n, Running(n, depth, a).value, b)
    ensures Operations(a + b) == Operations(a) + Operations(b)
    decreases |a|
  {
    if a == [] {
      assert a + b == b;
    } else {
      assert (a + b)[1..] == a[1..] + b;
      match a[0]
      case Before(_) => RunningAppend(n, depth + 1, a[1..], b);
      case After(k) => RunningAppend(n, k, a[1..], b);
      case Operation(_) => RunningAppend(n, depth, a[1..], b);
    }
  }

  /** What a run from position `k` appends to the trace: balanced effects of the hooks from
      `k` on, with one operation for every call. */
  ghost predicate Appends(n: nat, k: nat, s: CallState, s': CallState, effects: seq<Event>) {
    && s'.trace == s.trace + effects && Running(n, k, effects) == Some(k)
    && s'.calls == s.calls + Operations(effects)
  }

  /** For every hook list, retries included, the effects are well bracketed: every start has
      its end, hook `k` runs only inside hook `k - 1`, and the operation runs only inside all
      of them, once for every call. */
  lemma {:induction false} EffectsAreBracketed(op: nat -> Option<Error>, hooks: seq<Hook>, k: nat, s: CallState)
    returns (effects: seq<Event>)
    requires k <= |hooks|
    ensures Appends(|hooks|, k, s, RunStack(op, Chain(hooks, k), s).1, effects)
    decreases |hooks| - k, 1
  {
    if k == |hooks| {
      effects := [Operation(s.payload)];
      assert effects[1..] == [];
    } else {
      var inner := HookIsBracketed(op, hooks, k, Entered(k, hooks[k], s));
      effects := [Before(k)] + inner + [After(k)];
      Wrap(|hooks|, k, inner);
      Regroup(s.trace, [Before(k)], inner, [After(k)]);
    }
  }

  /** What happens between the start and the end of hook `k`. */
  lemma {:induction false} HookIsBracketed(op: nat -> Option<Error>, hooks: seq<Hook>, k: nat, s: CallState)
    returns (effects: seq<Event>)
    requires k < |hooks| && (hooks[k].Amend? ==> s.payload == hooks[k].payload)
    ensures Appends(|hooks|, k + 1, s, RunStackHook(op, hooks[k], Chain(hooks, k + 1), s).1, effects)
    decreases |hooks| - k, 0
  {
    effects := [];
    if !hooks[k].FailBefore? && !hooks[k].Skip? {
      effects := EffectsAreBracketed(op, hooks, k + 1, s);
      var (err, s1) := RunStack(op, Chain(hooks, k + 1), s);
      if hooks[k].Retry? && err.Some? {
        var again := EffectsAreBracketed(op, hooks, k + 1, s1);
        RunningAppend(|hooks|, k + 1, effects, again);
        assert (s.trace + effects) + again == s.trace + (effects + again);
        effects := effects + again;
      }
    }
  }

  lemma Wrap(n: nat, k: nat, inner: seq<Event>)
    requires k < n && Running(n, k + 1, inner) == Some(k + 1)
    ensures Running(n, k, [Before(k)] + inner + [After(k)]) == Some(k)
    ensures Operations([Before(k)] + inner + [After(k)]) == Operations(inner)
  {
    assert [Before(k)][1..] == [] && [After(k)][1..] == [];
    assert Running(n, k, [Before(k)]) == Some(k + 1) && Running(n, k + 1, [After(k)]) == Some(k);
    RunningAppend(n, k, [Before(k)], inner);
    RunningAppend(n, k, [Before(k)] + inner, [After(k)]);
    assert Operations([Before(k)]) == 0 && Operations([After(k)]) == 0;
  }

  // ---- When success can be trusted ----------------------------------------------

  /** From position `k` on, the outermost hook that does more than pass, amend or retry
      turns whatever happens inside into success. */
  predicate Swallows(hooks: seq<Hook>, k: nat)
    requires k <= |hooks|
    decreases |hooks| - k
  {
    k < |hooks| &&
    match hooks[k]
    case Recover => true
    case Skip => true
    case FailBefore(_) => false
    case FailAfter(_) => false
    case _ => Swallows(hooks, k + 1)
  }

  /** Success always means that the operation ran in this call and its last call succeeded. */
  ghost predicate Trustworthy(hooks: seq<Hook>) {
    forall op: nat -> Option<Error>, s: CallState :: TrustedRun(op, hooks, 0, s)
  }

  ghost predicate TrustedRun(op: nat -> Option<Error>, hooks: seq<Hook>, k: nat, s: CallState)
    requires k <= |hooks|
  {
    var (err, s') := RunStack(op, Chain(hooks, k), s);
    err.None? ==> s'.calls > s.calls && op(s'.calls - 1).None?
  }

  /** Success of a stack can be trusted exactly when the stack does not swallow. */
  lemma TrustworthyIff(hooks: seq<Hook>)
    ensures Trustworthy(hooks) <==> !Swallows(hooks, 0)
  {
    if Swallows(hooks, 0) {
      var op: nat -> Option<Error> := _ => Some(DatabaseFailed);
      var s := CallState(None, [], 0);
      SwallowingSucceeds(op, hooks, 0, s);
      assert !TrustedRun(op, hooks, 0, s);
    } else {
      forall op: nat -> Option<Error>, s: CallState ensures TrustedRun(op, hooks, 0, s) {
        NotSwallowingIsTrusted(op, hooks, 0, s);
      }
    }
  }

  lemma {:induction false} SwallowingSucceeds(op: nat -> Option<Error>, hooks: seq<Hook>, k: nat, s: CallState)
    requires k <= |hooks| && Swallows(hooks, k)
    ensures RunStack(op, Chain(hooks, k), s).0 == None
    decreases |hooks| - k
  {
    if Swallows(hooks, k + 1) && !hooks[k].Recover? && !hooks[k].Skip? {
      var s2 := Entered(k, hooks[k], s);
      SwallowingSucceeds(op, hooks, k + 1, s2);
    }
  }

  lemma {:induction false} CallsGrow(op: nat -> Option<Error>, m: Mutator, s: CallState)
    ensures RunStack(op, m, s).1.calls >= s.calls
    decreases m
  {
    if m.Wrapped? {
      var s2 := Entered(m.k, m.hook, s);
      CallsGrow(op, m.next, s2);
      CallsGrow(op, m.next, RunStack(op, m.next, s2).1);
    }
  }

  lemma {:induction false} NotSwallowingIsTrusted(op: nat -> Option<Error>, hooks: seq<Hook>, k: nat, s: CallState)
    requires k <= |hooks| && !Swallows(hooks, k)
    ensures TrustedRun(op, hooks, k, s)
    decreases |hooks| - k
  {
    if k < |hooks| && (Transparent(hooks[k]) || hooks[k].Retry?) {
      var s2 := Entered(k, hooks[k], s);
      var next := Chain(hooks, k + 1);
      NotSwallowingIsTrusted(op, hooks, k + 1, s2);
      CallsGrow(op, next, s2);
      NotSwallowingIsTrusted(op, hooks, k + 1, RunStack(op, next, s2).1);
    }
  }
}
