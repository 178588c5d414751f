/** What the interleavings of linked tokens guarantee: no cancellation is lost, none is invented, no call
    deadlocks, and every call returns. */
module CancellationTheorems {
  import opened Domain
  import opened CancellationTokens

  // ---- no cancellation is lost ----

  ghost predicate Ancestor(s: State, a: nat, t: nat)
    decreases t
  {
    a == t || (t < |s.parents| && s.parents[t].Some? && s.parents[t].value < t && Ancestor(s, a, s.parents[t].value))
  }

  /** `a` is `t` or one of its ancestors, and every token below `a` on the way to `t` is still owned. */
  ghost predicate LiveChain(s: State, a: nat, t: nat)
    decreases t
  {
    || a == t
    || (t !in s.dropped && t < |s.parents| && s.parents[t].Some? && s.parents[t].value < t
       && LiveChain(s, a, s.parents[t].value))
  }

  lemma {:induction false} FlagReachesDescendants(s: State, a: nat, t: nat)
    requires Invariant(s) && Quiescent(s) && LiveChain(s, a, t) && a < |s.flags| && t < |s.flags| && s.flags[a]
    ensures s.flags[t]
    decreases t
  {
    if a != t {
      var p := s.parents[t].value;
      FlagReachesDescendants(s, a, p);
      assert LinkOk(s, p, t);
    }
  }

  /** Once the calls have returned, everything linked below a token on which `cancel` was called is
      cancelled, in every interleaving. */
  lemma NoCancellationLost(threads: nat, ops: seq<Op>, a: nat, t: nat)
    requires Execute(threads, ops).Some?
    requires var s := Execute(threads, ops).value;
             Quiescent(s) && a in s.requested && t < |s.flags| && LiveChain(s, a, t)
    ensures Execute(threads, ops).value.flags[t]
  {
    var s := Execute(threads, ops).value;
    ReachableInvariant(threads, ops);
    assert RequestOk(s, a);
    FlagReachesDescendants(s, a, t);
  }

  // ---- none is invented ----

  /** `cancel` was called on the token itself, or its source is cancelled. */
  ghost predicate Rooted(s: State, t: nat) {
    t in s.requested || SourceFlagged(s, t)
  }

  ghost predicate SourceFlagged(s: State, t: nat) {
    t < |s.parents| && s.parents[t].Some? && s.parents[t].value < |s.flags| && s.flags[s.parents[t].value]
  }

  /** Every flag, and every cancel call under way, has a call or a cancelled source behind it. */
  ghost predicate AllRooted(s: State) {
    && (forall t: nat :: t < |s.flags| && s.flags[t] ==> Rooted(s, t))
    && (forall th :: 0 <= th < |s.threads| ==> CallRooted(s, s.threads[th]))
  }

  ghost predicate CallRooted(s: State, call: Call) {
    call.Cancel? ==> forall k :: 0 <= k < |call.stack| ==> Rooted(s, call.stack[k].token)
  }

  /** Flags, links and requests only accumulate. */
  ghost predicate Accumulates(s: State, s': State) {
    && s.parents <= s'.parents && s.requested <= s'.requested && |s.flags| <= |s'.flags|
    && forall t :: 0 <= t < |s.flags| && s.flags[t] ==> s'.flags[t]
  }

  lemma RootedGrows(s: State, s': State)
    requires Accumulates(s, s')
    ensures forall t :: Rooted(s, t) ==> Rooted(s', t)
    ensures forall call :: CallRooted(s, call) ==> CallRooted(s', call)
  {
  }

  lemma CancelStepRooted(s: State, th: nat)
    requires WellFormed(s) && AllRooted(s) && th < |s.threads| && s.threads[th].Cancel? && AdvanceStep(s, th).Some?
    ensures CallRooted(s, AdvanceStep(s, th).value.threads[th])
  {
    var s', lower, top := AdvanceCancelShape(s, th);
    var stack, after := lower + [top], lower + TopAfter(s, top);
    assert CallOk(s, s.threads[th]) && CallRooted(s, s.threads[th]) && stack[|lower|] == top;
    assert LinksTo(s.parents, s.handlers[top.token], top.token);
    forall k | 0 <= k < |after| ensures Rooted(s, after[k].token) {
      if k < |lower| {
        assert after[k] == stack[k];
      } else if k == |lower| + 1 {
        assert SourceFlagged(s, after[k].token);
      }
    }
  }

  lemma FlagStepRooted(s: State, th: nat)
    requires WellFormed(s) && AllRooted(s) && AdvanceStep(s, th).Some?
    ensures forall t: nat :: t < |s.flags| && AdvanceStep(s, th).value.flags[t] ==> Rooted(s, t)
    ensures Accumulates(s, AdvanceStep(s, th).value)
  {
    if s.threads[th].Cancel? {
      var s', lower, top := AdvanceCancelShape(s, th);
      assert CallRooted(s, s.threads[th]) && s.threads[th].stack[|lower|] == top;
    }
  }

  lemma AdvanceKeepsRooted(s: State, th: nat)
    requires WellFormed(s) && AllRooted(s) && AdvanceStep(s, th).Some?
    ensures AllRooted(AdvanceStep(s, th).value)
  {
    var s' := AdvanceStep(s, th).value;
    FlagStepRooted(s, th);
    RootedGrows(s, s');
    if s.threads[th].Cancel? {
      CancelStepRooted(s, th);
    } else {
      assert CallOk(s, s.threads[th]);
    }
    forall o | 0 <= o < |s'.threads| ensures CallRooted(s', s'.threads[o]) {
      assert CallRooted(s, s'.threads[o]);
    }
  }

  lemma {:induction false} ReachableRooted(threads: nat, ops: seq<Op>)
    requires Execute(threads, ops).Some?
    ensures AllRooted(Execute(threads, ops).value)
  {
    if ops != [] {
      var earlier, op := ops[..|ops| - 1], ops[|ops| - 1];
      ReachableRooted(threads, earlier);
      ReachableInvariant(threads, earlier);
      var s, s' := Execute(threads, earlier).value, Execute(threads, ops).value;
      if op.Advance? {
        AdvanceKeepsRooted(s, op.thread);
      } else {
        RootedGrows(s, s');
        forall th | 0 <= th < |s'.threads| ensures CallRooted(s', s'.threads[th]) {
          assert CallRooted(s, s.threads[th]);
        }
      }
    }
  }

  /** From `a` down to `t` every token is cancelled. */
  ghost predicate FlaggedChain(s: State, a: nat, t: nat)
    decreases t
  {
    && t < |s.flags| && s.flags[t]
    && (a == t || (t < |s.parents| && s.parents[t].Some? && s.parents[t].value < t
       && FlaggedChain(s, a, s.parents[t].value)))
  }

  lemma {:induction false} RootedHasChain(s: State, t: nat) returns (a: nat)
    requires ForestOk(s) && AllRooted(s) && t < |s.flags| && s.flags[t]
    ensures a in s.requested && FlaggedChain(s, a, t)
    decreases t
  {
    assert Rooted(s, t);
    if t in s.requested {
      a := t;
    } else {
      a := RootedHasChain(s, s.parents[t].value);
    }
  }

  /** At any time, a token is only cancelled if `cancel` was called on it or its source is cancelled; so an
      unbroken chain of cancelled tokens leads down to it from one on which `cancel` was called. */
  lemma NoCancellationInvented(threads: nat, ops: seq<Op>, t: nat)
    requires Execute(threads, ops).Some?
    requires t < |Execute(threads, ops).value.flags| && Execute(threads, ops).value.flags[t]
    ensures var s := Execute(threads, ops).value; t in s.requested || SourceFlagged(s, t)
    ensures var s := Execute(threads, ops).value; exists a :: a in s.requested && FlaggedChain(s, a, t)
  {
    var s := Execute(threads, ops).value;
    ReachableRooted(threads, ops);
    ReachableInvariant(threads, ops);
    assert Rooted(s, t);
    var a := RootedHasChain(s, t);
  }

  // ---- exactly which tokens are cancelled ----

  /** Where cancellation arrives: a dropped token is left as it was when it was dropped; any other is
      cancelled by a call on it or through its source. */
  ghost predicate Delivered(s: State, t: nat)
    decreases t
  {
    if t in s.dropped then t < |s.flags| && s.flags[t]
    else
      || t in s.requested
      || (t < |s.parents| && s.parents[t].Some? && s.parents[t].value < t && Delivered(s, s.parents[t].value))
  }

  /** The law of one link, for every token that still has an owner. */
  lemma LinkLaw(s: State, t: nat)
    requires Invariant(s) && AllRooted(s) && Quiescent(s) && t < |s.flags| && t !in s.dropped
    ensures s.flags[t] <==> t in s.requested || SourceFlagged(s, t)
  {
    assert s.flags[t] ==> Rooted(s, t);
    assert t in s.requested ==> RequestOk(s, t);
    assert s.parents[t].Some? ==> LinkOk(s, s.parents[t].value, t);
  }

  lemma {:induction false} FlagsAreDeliveries(s: State, t: nat)
    requires Invariant(s) && AllRooted(s) && Quiescent(s) && t < |s.flags|
    ensures s.flags[t] <==> Delivered(s, t)
    decreases t
  {
    if t !in s.dropped {
      LinkLaw(s, t);
      if s.parents[t].Some? {
        FlagsAreDeliveries(s, s.parents[t].value);
      }
    }
  }

  ghost predicate Justified(s: State, t: nat) {
    exists a :: a in s.requested && Ancestor(s, a, t)
  }

  lemma {:induction false} DeliveredWithoutDrops(s: State, t: nat)
    requires ForestOk(s) && s.dropped == {} && t < |s.flags|
    ensures Delivered(s, t) <==> Justified(s, t)
    decreases t
  {
    if s.parents[t].Some? {
      DeliveredWithoutDrops(s, s.parents[t].value);
      if Justified(s, s.parents[t].value) {
        var a :| a in s.requested && Ancestor(s, a, s.parents[t].value);
        assert Ancestor(s, a, t);
      }
    }
    assert t in s.requested ==> Ancestor(s, t, t);
  }

  /** Once the calls have returned, the cancelled tokens are exactly those to which cancellation is
      delivered: link by link for tokens with an owner, and while none is dropped the descendants of the
      tokens on which `cancel` was called. */
  lemma SettledFlagsExact(threads: nat, ops: seq<Op>, t: nat)
    requires Execute(threads, ops).Some?
    requires Quiescent(Execute(threads, ops).value) && t < |Execute(threads, ops).value.flags|
    ensures var s := Execute(threads, ops).value;
            && (s.flags[t] <==> Delivered(s, t))
            && (t !in s.dropped ==> (s.flags[t] <==> t in s.requested || SourceFlagged(s, t)))
            && (s.dropped == {} ==> (s.flags[t] <==> Justified(s, t)))
  {
    var s := Execute(threads, ops).value;
    ReachableRooted(threads, ops);
    ReachableInvariant(threads, ops);
    FlagsAreDeliveries(s, t);
    if t !in s.dropped {
      LinkLaw(s, t);
    }
    if s.dropped == {} {
      DeliveredWithoutDrops(s, t);
    }
  }

  /** Below `m`, down to `t`, nothing is cancelled by a call of its own or was cancelled before its drop. */
  ghost predicate OnlyThrough(s: State, m: nat, t: nat)
    decreases t
  {
    m == t ||
    (&& t !in s.requested && (t in s.dropped ==> t < |s.flags| && !s.flags[t])
     && t < |s.parents| && s.parents[t].Some? && s.parents[t].value < t && OnlyThrough(s, m, s.parents[t].value))
  }

  /** The gap in the chain from `a` to `t`: a token that was dropped before the cancellation came to it. */
  ghost predicate GapAt(s: State, a: nat, m: nat, t: nat) {
    m in s.dropped && m < |s.flags| && !s.flags[m] && Ancestor(s, a, m) && OnlyThrough(s, m, t)
  }

  lemma {:induction false} UnflaggedHasGap(s: State, a: nat, t: nat) returns (m: nat)
    requires Invariant(s) && AllRooted(s) && Quiescent(s) && a in s.requested && Ancestor(s, a, t)
    requires t < |s.flags| && !s.flags[t]
    ensures GapAt(s, a, m, t)
    decreases t
  {
    assert RequestOk(s, a);
    if t in s.dropped {
      m := t;
    } else {
      LinkLaw(s, t);
      m := UnflaggedHasGap(s, a, s.parents[t].value);
    }
  }

  lemma {:induction false} GapHidesFlag(s: State, a: nat, m: nat, t: nat)
    requires ForestOk(s) && AllRooted(s) && GapAt(s, a, m, t) && t < |s.flags|
    ensures !s.flags[t]
    decreases t
  {
    if m != t {
      GapHidesFlag(s, a, m, s.parents[t].value);
      assert s.flags[t] ==> Rooted(s, t);
    }
  }

  /** A descendant of a cancelled token is lost exactly when there is a gap above it. */
  lemma LostExactlyBelowGaps(threads: nat, ops: seq<Op>, a: nat, t: nat)
    requires Execute(threads, ops).Some?
    requires var s := Execute(threads, ops).value;
             Quiescent(s) && a in s.requested && Ancestor(s, a, t) && t < |s.flags|
    ensures var s := Execute(threads, ops).value; !s.flags[t] <==> exists m :: GapAt(s, a, m, t)
  {
    var s := Execute(threads, ops).value;
    ReachableRooted(threads, ops);
    ReachableInvariant(threads, ops);
    if !s.flags[t] {
      var m := UnflaggedHasGap(s, a, t);
    } else if exists m :: GapAt(s, a, m, t) {
      var m :| GapAt(s, a, m, t);
      GapHidesFlag(s, a, m, t);
    }
  }

  // ---- a dropped token stays as it is ----

  ghost predicate DropsUnused(s: State) {
    forall t :: t in s.dropped ==> t < |s.flags| && forall th :: 0 <= th < |s.threads| ==> !Uses(s.threads[th], t)
  }

  lemma CancelStepUnused(s: State, th: nat, t: nat)
    requires WellFormed(s) && DropsUnused(s) && t in s.dropped
    requires th < |s.threads| && s.threads[th].Cancel? && AdvanceStep(s, th).Some?
    ensures !Uses(AdvanceStep(s, th).value.threads[th], t) && AdvanceStep(s, th).value.flags[t] == s.flags[t]
  {
    var s', lower, top := AdvanceCancelShape(s, th);
    var stack, after := lower + [top], lower + TopAfter(s, top);
    assert !Uses(s.threads[th], t) && stack[|lower|] == top;
    forall k | 0 <= k < |after| ensures after[k].token != t {
      if k < |lower| {
        assert after[k] == stack[k];
      }
    }
  }

  lemma StepKeepsDropsUnused(s: State, op: Op)
    requires WellFormed(s) && DropsUnused(s) && Step(s, op).Some?
    ensures DropsUnused(Step(s, op).value)
    ensures forall t :: t in s.dropped ==> Step(s, op).value.flags[t] == s.flags[t]
  {
    var s' := Step(s, op).value;
    forall t | t in s'.dropped ensures t < |s'.flags| && (t in s.dropped ==> s'.flags[t] == s.flags[t]) {
      if op.Advance? && s.threads[op.thread].Cancel? {
        CancelStepUnused(s, op.thread, t);
      }
    }
    forall t, th | t in s'.dropped && 0 <= th < |s'.threads| ensures !Uses(s'.threads[th], t) {
      if t in s.dropped {
        assert !Uses(s.threads[th], t);
        if op == Advance(th) && s.threads[th].Cancel? {
          CancelStepUnused(s, th, t);
        }
      }
    }
  }

  lemma {:induction false} ReachableDropsUnused(threads: nat, ops: seq<Op>)
    requires Execute(threads, ops).Some?
    ensures DropsUnused(Execute(threads, ops).value)
  {
    if ops != [] {
      var earlier := ops[..|ops| - 1];
      ReachableDropsUnused(threads, earlier);
      ReachableInvariant(threads, earlier);
      StepKeepsDropsUnused(Execute(threads, earlier).value, ops[|ops| - 1]);
    }
  }

  /** No later step cancels a token once it is dropped: a gap never closes. */
  lemma DroppedFlagIsFinal(threads: nat, ops: seq<Op>, op: Op, t: nat)
    requires Execute(threads, ops).Some? && Step(Execute(threads, ops).value, op).Some?
    requires t in Execute(threads, ops).value.dropped
    ensures var s := Execute(threads, ops).value; t < |s.flags| && Step(s, op).value.flags[t] == s.flags[t]
  {
    ReachableInvariant(threads, ops);
    ReachableDropsUnused(threads, ops);
    StepKeepsDropsUnused(Execute(threads, ops).value, op);
  }

  // ---- no deadlock ----

  ghost predicate Increasing(stack: seq<Frame>) {
    forall i, j :: 0 <= i < j < |stack| ==> stack[i].token < stack[j].token
  }

  lemma {:induction false} Climbs(s: State, stack: seq<Frame>, i: nat, j: nat)
    requires ForestOk(s) && CallOk(s, Cancel(stack)) && i < j < |stack|
    ensures stack[i].token < stack[j].token
  {
    assert Nested(s, stack[j - 1], stack[j]);
    if i < j - 1 {
      Climbs(s, stack, i, j - 1);
    }
  }

  /** Links only go to newer tokens, so the recursion of `cancel` climbs strictly. */
  lemma StackIncreasing(s: State, stack: seq<Frame>)
    requires ForestOk(s) && CallOk(s, Cancel(stack))
    ensures Increasing(stack)
  {
    forall i, j | 0 <= i < j < |stack| ensures stack[i].token < stack[j].token {
      Climbs(s, stack, i, j);
    }
  }

  /** The token whose handler list a stuck thread is waiting for. */
  function Wanted(call: Call): nat
    requires call.Cancel? ==> call.stack != []
  {
    match call
    case Idle => 0
    case Cancel(stack) => stack[|stack| - 1].token
    case Create(parent, _, _) => parent
  }

  lemma StuckWaitsForLock(s: State, th: nat)
    requires WellFormed(s) && th < |s.threads| && !s.threads[th].Idle? && AdvanceStep(s, th).None?
    ensures CallOk(s, s.threads[th]) && Wanted(s.threads[th]) < |s.flags| && Locked(s, Wanted(s.threads[th]))
    ensures s.threads[th].Cancel? ==> s.threads[th].stack[|s.threads[th].stack| - 1].pc.AwaitLock?
  {
    var call := s.threads[th];
    assert CallOk(s, call);
    if call.Cancel? {
      assert FrameOk(s, call.stack[|call.stack| - 1]);
    }
  }

  lemma {:induction false} SomeThreadRuns(s: State, th: nat) returns (r: nat)
    requires WellFormed(s) && th < |s.threads| && !s.threads[th].Idle?
    ensures r < |s.threads| && AdvanceStep(s, r).Some?
    decreases if AdvanceStep(s, th).Some? then 0 else |s.flags| - (if CallOk(s, s.threads[th])
        then Wanted(s.threads[th]) else 0)
  {
    if AdvanceStep(s, th).Some? {
      r := th;
    } else {
      StuckWaitsForLock(s, th);
      var want := Wanted(s.threads[th]);
      var holder :| 0 <= holder < |s.threads| && HoldsLock(s.threads[holder], want);
      if AdvanceStep(s, holder).Some? {
        r := holder;
      } else {
        var stack := s.threads[holder].stack;
        StuckWaitsForLock(s, holder);
        StackIncreasing(s, stack);
        var k :| 0 <= k < |stack| && stack[k].token == want && stack[k].pc.Visiting?;
        assert k < |stack| - 1;
        r := SomeThreadRuns(s, holder);
      }
    }
  }

  /** Although `cancel` calls handlers with locks held, in every reachable state with a running call some
      call can take its next step. */
  lemma NoDeadlock(threads: nat, ops: seq<Op>)
    requires Execute(threads, ops).Some? && !Quiescent(Execute(threads, ops).value)
    ensures exists th :: Step(Execute(threads, ops).value, Advance(th)).Some?
  {
    var s := Execute(threads, ops).value;
    ReachableInvariant(threads, ops);
    var th :| 0 <= th < |s.threads| && !s.threads[th].Idle?;
    var r := SomeThreadRuns(s, th);
    assert Step(s, Advance(r)).Some?;
  }

  // ---- every call returns ----

  /** The steps a `cancel` of `t` may still need: its own three and, for every token linked to `t`, one
      visit and a whole `cancel` of it. */
  ghost function CancelWork(parents: seq<Option<nat>>, t: nat): nat
    decreases if t < |parents| then |parents| - t else 0, |parents| + 1
  {
    3 + LinkedWork(parents, t, {}, t + 1)
  }

  ghost function LinkedWork(parents: seq<Option<nat>>, t: nat, visited: set<nat>, from: nat): nat
    requires t < from
    decreases if t < |parents| then |parents| - t else 0, if from < |parents| then |parents| - from else 0
  {
    if from >= |parents| then 0
    else
      (if parents[from] == Some(t) && from !in visited then 1 + CancelWork(parents, from) else 0)
      + LinkedWork(parents, t, visited, from + 1)
  }

  lemma {:induction false} VisitLowersWork(parents: seq<Option<nat>>, t: nat, visited: set<nat>, c: nat, from: nat)
    requires t < from && c < |parents| && parents[c] == Some(t) && c !in visited
    ensures LinkedWork(parents, t, visited, from) ==
            LinkedWork(parents, t, visited + {c}, from) + if from <= c then 1 + CancelWork(parents, c) else 0
    decreases if from < |parents| then |parents| - from else 0
  {
    if from < |parents| {
      VisitLowersWork(parents, t, visited, c, from + 1);
    }
  }

  function Visited(handlers: seq<nat>, next: nat): set<nat> {
    set i | 0 <= i < next && i < |handlers| :: handlers[i]
  }

  ghost function FrameWork(s: State, f: Frame): nat {
    match f.pc
    case SetFlag => CancelWork(s.parents, f.token)
    case AwaitLock => 2 + LinkedWork(s.parents, f.token, {}, f.token + 1)
    case Visiting(i) =>
      1 + LinkedWork(s.parents, f.token, if f.token < |s.handlers| then Visited(s.handlers[f.token], i) else {},
          f.token + 1)
  }

  ghost function StackWork(s: State, stack: seq<Frame>): nat {
    if stack == [] then 0 else StackWork(s, stack[..|stack| - 1]) + FrameWork(s, stack[|stack| - 1])
  }

  ghost function CallWork(s: State, call: Call): nat {
    match call
    case Idle => 0
    case Cancel(stack) => StackWork(s, stack)
    case Create(_, child, pc) => (if pc.Register? then 2 else 1) + CancelWork(s.parents, child)
  }

  ghost function TotalWork(s: State, threads: seq<Call>): nat {
    if threads == [] then 0 else TotalWork(s, threads[..|threads| - 1]) + CallWork(s, threads[|threads| - 1])
  }

  /** No token is registered twice, so a visit is never repeated within one `cancel`. */
  ghost predicate Distinct(handlers: seq<nat>) {
    forall i, j :: 0 <= i < j < |handlers| ==> handlers[i] != handlers[j]
  }

  ghost predicate RegistersOnce(s: State) {
    && (forall p :: 0 <= p < |s.handlers| ==> Distinct(s.handlers[p]))
    && (forall th :: 0 <= th < |s.threads| && ToRegister(s.threads[th]) ==> NotYetRegistered(s, s.threads[th]))
    && (forall a, b :: 0 <= a < b < |s.threads| && ToRegister(s.threads[a]) && ToRegister(s.threads[b]) ==>
          s.threads[a].child != s.threads[b].child)
  }

  predicate ToRegister(call: Call) {
    call.Create? && call.pc.Register?
  }

  ghost predicate NotYetRegistered(s: State, call: Call)
    requires call.Create?
  {
    call.child < |s.parents| && (forall p :: 0 <= p < |s.handlers| ==> call.child !in s.handlers[p])
  }

  lemma DistinctAppend(handlers: seq<nat>, c: nat)
    requires Distinct(handlers) && c !in handlers
    ensures Distinct(handlers + [c])
  {
  }

  lemma RegisterStepOnce(s: State, th: nat)
    requires WellFormed(s) && RegistersOnce(s) && AdvanceStep(s, th).Some? && ToRegister(s.threads[th])
    ensures RegistersOnce(AdvanceStep(s, th).value)
  {
    var s', call := AdvanceStep(s, th).value, s.threads[th];
    assert CallOk(s, call) && NotYetRegistered(s, call);
    DistinctAppend(s.handlers[call.parent], call.child);
    forall o | 0 <= o < |s'.threads| && ToRegister(s'.threads[o]) ensures NotYetRegistered(s', s'.threads[o]) {
      assert o != th && NotYetRegistered(s, s.threads[o]) && s.threads[o].child != call.child;
    }
  }

  lemma OtherStepOnce(s: State, op: Op)
    requires WellFormed(s) && RegistersOnce(s) && Step(s, op).Some?
    requires op.Advance? ==> !ToRegister(s.threads[op.thread])
    ensures RegistersOnce(Step(s, op).value)
  {
    var s' := Step(s, op).value;
    forall o | 0 <= o < |s'.threads| && ToRegister(s'.threads[o]) ensures NotYetRegistered(s', s'.threads[o]) {
      if ToRegister(s.threads[o]) && s'.threads[o] == s.threads[o] {
        assert NotYetRegistered(s, s.threads[o]);
      } else {
        forall p: nat | p < |s'.handlers| ensures s'.threads[o].child !in s'.handlers[p] {
          assert p < |s.handlers| ==> LinksTo(s.parents, s.handlers[p], p);
        }
      }
    }
    forall a, b | 0 <= a < b < |s'.threads| && ToRegister(s'.threads[a]) && ToRegister(s'.threads[b])
      ensures s'.threads[a].child != s'.threads[b].child
    {
      assert ToRegister(s.threads[a]) ==> NotYetRegistered(s, s.threads[a]);
      assert ToRegister(s.threads[b]) ==> NotYetRegistered(s, s.threads[b]);
    }
  }

  lemma {:induction false} ReachableRegistersOnce(threads: nat, ops: seq<Op>)
    requires Execute(threads, ops).Some?
    ensures RegistersOnce(Execute(threads, ops).value)
  {
    if ops != [] {
      var earlier, op := ops[..|ops| - 1], ops[|ops| - 1];
      ReachableRegistersOnce(threads, earlier);
      ReachableInvariant(threads, earlier);
      var s := Execute(threads, earlier).value;
      if op.Advance? && ToRegister(s.threads[op.thread]) {
        RegisterStepOnce(s, op.thread);
      } else {
        OtherStepOnce(s, op);
      }
    }
  }

  lemma FrameWorkKept(s: State, s': State, f: Frame)
    requires Grows(s, s') && s'.parents == s.parents && FrameOk(s, f)
    ensures FrameWork(s', f) == FrameWork(s, f)
  {
    if f.pc.Visiting? {
      assert Visited(s'.handlers[f.token], f.pc.next) == Visited(s.handlers[f.token], f.pc.next);
    }
  }

  lemma {:induction false} StackWorkKept(s: State, s': State, stack: seq<Frame>)
    requires Grows(s, s') && s'.parents == s.parents
    requires forall k :: 0 <= k < |stack| ==> FrameOk(s, stack[k])
    ensures StackWork(s', stack) == StackWork(s, stack)
  {
    if stack != [] {
      StackWorkKept(s, s', stack[..|stack| - 1]);
      FrameWorkKept(s, s', stack[|stack| - 1]);
    }
  }

  lemma CallWorkKept(s: State, s': State, call: Call)
    requires Grows(s, s') && s'.parents == s.parents && CallOk(s, call)
    ensures CallWork(s', call) == CallWork(s, call)
  {
    if call.Cancel? {
      StackWorkKept(s, s', call.stack);
    }
  }

  lemma {:induction false} StackWorkConcat(s: State, a: seq<Frame>, b: seq<Frame>)
    ensures StackWork(s, a + b) == StackWork(s, a) + StackWork(s, b)
  {
    if b == [] {
      assert a + b == a;
    } else {
      StackWorkConcat(s, a, b[..|b| - 1]);
      assert (a + b)[..|a + b| - 1] == a + b[..|b| - 1];
    }
  }

  lemma TopWorkDrops(s: State, top: Frame)
    requires ForestOk(s) && FrameOk(s, top) && Distinct(s.handlers[top.token])
    ensures StackWork(s, TopAfter(s, top)) < FrameWork(s, top)
  {
    var handlers := s.handlers[top.token];
    match top.pc
    case SetFlag =>
      assert [Frame(top.token, AwaitLock)][..0] == [];
    case AwaitLock =>
      assert Visited(handlers, 0) == {};
      assert [Frame(top.token, Visiting(0))][..0] == [];
    case Visiting(i) =>
      if i < |handlers| {
        var c := handlers[i];
        assert LinksTo(s.parents, handlers, top.token);
        assert Visited(handlers, i + 1) == Visited(handlers, i) + {c};
        VisitLowersWork(s.parents, top.token, Visited(handlers, i), c, top.token + 1);
        var next, pushed := Frame(top.token, Visiting(i + 1)), Frame(c, SetFlag);
        StackWorkConcat(s, [next], [pushed]);
        assert [next] + [pushed] == [next, pushed];
        assert [next][..0] == [] && [pushed][..0] == [];
      }
  }

  /** A call's own step lowers the work it has left. */
  lemma AdvanceLowersWork(s: State, th: nat)
    requires WellFormed(s) && RegistersOnce(s) && AdvanceStep(s, th).Some?
    ensures CallWork(AdvanceStep(s, th).value, AdvanceStep(s, th).value.threads[th]) < CallWork(s, s.threads[th])
  {
    var call := s.threads[th];
    if call.Cancel? {
      var s', lower, top := AdvanceCancelShape(s, th);
      AdvanceCancelWellFormed(s, th);
      StackWorkConcat(s, lower, TopAfter(s, top));
      StackWorkConcat(s, lower, [top]);
      assert [top][..0] == [];
      TopWorkDrops(s, top);
      var after := lower + TopAfter(s, top);
      assert s'.handlers == s.handlers && s'.parents == s.parents;
      SameWork(s, s', after);
    } else {
      var s' := AdvanceStep(s, th).value;
      assert CallOk(s, call);
      if s'.threads[th].Cancel? {
        var stack := [Frame(call.child, SetFlag)];
        assert s'.threads[th] == Cancel(stack) && stack[..0] == [];
        assert StackWork(s', stack) == FrameWork(s', stack[0]) == CancelWork(s.parents, call.child);
      }
    }
  }

  lemma {:induction false} SameWork(s: State, s': State, stack: seq<Frame>)
    requires s'.handlers == s.handlers && s'.parents == s.parents
    ensures StackWork(s', stack) == StackWork(s, stack)
  {
    if stack != [] {
      SameWork(s, s', stack[..|stack| - 1]);
    }
  }

  lemma {:induction false} TotalWorkChange(s: State, s': State, threads: seq<Call>, th: nat, call: Call)
    requires th < |threads| && CallWork(s', call) < CallWork(s, threads[th])
    requires forall o :: 0 <= o < |threads| && o != th ==> CallWork(s', threads[o]) == CallWork(s, threads[o])
    ensures TotalWork(s', threads[th := call]) < TotalWork(s, threads)
  {
    var n := |threads| - 1;
    if th < n {
      TotalWorkChange(s, s', threads[..n], th, call);
      assert threads[th := call][..n] == threads[..n][th := call];
    } else {
      assert threads[th := call][..n] == threads[..n];
      TotalWorkSame(s, s', threads[..n]);
    }
  }

  lemma {:induction false} TotalWorkSame(s: State, s': State, threads: seq<Call>)
    requires forall o :: 0 <= o < |threads| ==> CallWork(s', threads[o]) == CallWork(s, threads[o])
    ensures TotalWork(s', threads) == TotalWork(s, threads)
  {
    if threads != [] {
      TotalWorkSame(s, s', threads[..|threads| - 1]);
    }
  }

  lemma AdvanceLowersTotal(s: State, th: nat)
    requires WellFormed(s) && RegistersOnce(s) && AdvanceStep(s, th).Some?
    ensures TotalWork(AdvanceStep(s, th).value, AdvanceStep(s, th).value.threads) < TotalWork(s, s.threads)
  {
    var s' := AdvanceStep(s, th).value;
    AdvanceLowersWork(s, th);
    assert Grows(s, s') && s'.parents == s.parents by {
      if s.threads[th].Cancel? {
        var _, lower, top := AdvanceCancelShape(s, th);
      } else {
        assert CallOk(s, s.threads[th]);
      }
    }
    forall o | 0 <= o < |s.threads| && o != th ensures CallWork(s', s.threads[o]) == CallWork(s, s.threads[o]) {
      assert CallOk(s, s.threads[o]);
      CallWorkKept(s, s', s.threads[o]);
    }
    TotalWorkChange(s, s', s.threads, th, s'.threads[th]);
    assert s'.threads == s.threads[th := s'.threads[th]];
  }

  /** With no new calls, every schedule of the running ones is finite: each step uses up part of the work
      known at the start. Together with NoDeadlock, all calls return. */
  lemma {:induction false} EveryScheduleEnds(threads: nat, ops: seq<Op>, schedule: seq<Op>)
    requires forall k :: 0 <= k < |schedule| ==> schedule[k].Advance?
    requires Execute(threads, ops + schedule).Some?
    ensures Execute(threads, ops).Some?
    ensures var s, s' := Execute(threads, ops).value, Execute(threads, ops + schedule).value;
            |schedule| + TotalWork(s', s'.threads) <= TotalWork(s, s.threads)
  {
    if schedule == [] {
      assert ops + schedule == ops;
    } else {
      var n := |schedule| - 1;
      assert ops + schedule == ops + schedule[..n] + [schedule[n]];
      LastAdvanceLowers(threads, ops + schedule[..n], schedule[n]);
      EveryScheduleEnds(threads, ops, schedule[..n]);
    }
  }

  lemma LastAdvanceLowers(threads: nat, ops: seq<Op>, op: Op)
    requires op.Advance? && Execute(threads, ops + [op]).Some?
    ensures Execute(threads, ops).Some?
    ensures var s, s' := Execute(threads, ops).value, Execute(threads, ops + [op]).value;
            TotalWork(s', s'.threads) < TotalWork(s, s.threads)
  {
    assert (ops + [op])[..|ops|] == ops;
    ReachableInvariant(threads, ops);
    ReachableRegistersOnce(threads, ops);
    AdvanceLowersTotal(Execute(threads, ops).value, op.thread);
  }

  // ---- the limit of the guarantee ----

  ghost predicate Reachable(s: State) {
    exists ops :: Execute(|s.threads|, ops) == Some(s)
  }

  lemma ReachableStep(s: State, op: Op, s': State)
    requires Reachable(s) && Step(s, op).Some? && Same(Step(s, op).value, s')
    ensures Reachable(s')
  {
    var ops :| Execute(|s.threads|, ops) == Some(s);
    assert (ops + [op])[..|ops|] == ops;
    assert Execute(|s'.threads|, ops + [op]) == Some(s');
  }

  /** Equality of states, component by component. */
  ghost predicate Same(a: State, b: State) {
    && a.flags == b.flags && a.handlers == b.handlers && a.parents == b.parents
    && a.threads == b.threads && a.dropped == b.dropped && a.requested == b.requested
  }

  /** Three tokens 0 - 1 - 2 linked in a row, the middle one dropped. */
  function BrokenChain(call: Call, flag: bool, requested: set<nat>): State {
    State([flag, false, false], [[1], [2], []], [None, Some(0), Some(1)], [call], {1}, requested)
  }

  function Linked(s: State, p: nat): State
    requires p < |s.handlers|
  {
    State(s.flags + [false], s.handlers[p := s.handlers[p] + [|s.flags|]] + [[]], s.parents + [Some(p)],
          s.threads, s.dropped, s.requested)
  }

  /** A lone thread runs `create_linked_token` on an uncancelled token to the end. */
  lemma LinkReachable(s: State, p: nat)
    requires Reachable(s) && s.threads == [Idle] && Alive(s, p) && |s.flags| == |s.handlers| && !s.flags[p]
    ensures Reachable(Linked(s, p))
  {
    var n := |s.flags|;
    var s1 := NewLinked(s, Some(p)).(threads := [Create(p, n, Register)]);
    ReachableStep(s, CallCreate(0, p), s1);
    var s2 := Linked(s, p).(threads := [Create(p, n, CheckFlag)]);
    assert !Locked(s1, p);
    assert s1.handlers[p := s1.handlers[p] + [n]] == s2.handlers;
    ReachableStep(s1, Advance(0), s2);
    ReachableStep(s2, Advance(0), Linked(s, p));
  }

  function Root(): State {
    State([false], [[]], [None], [Idle], {}, {})
  }

  lemma RootReachable()
    ensures Reachable(Root())
  {
    var s0 := State([], [], [], [Idle], {}, {});
    assert Init(1).threads == [Idle];
    assert Execute(1, []) == Some(s0);
    ReachableStep(s0, NewToken, Root());
  }

  lemma ChainShape()
    ensures Linked(Linked(Root(), 0), 1) == BrokenChain(Idle, false, {}).(dropped := {})
  {
    var none: seq<nat> := [];
    assert none + [1] == [1] && none + [2] == [2];
    assert Linked(Root(), 0).handlers == [[1], []];
    assert Linked(Linked(Root(), 0), 1).handlers == [[1], [2], []];
  }

  lemma BrokenChainReachable()
    ensures Reachable(BrokenChain(Idle, false, {}))
  {
    RootReachable();
    LinkReachable(Root(), 0);
    LinkReachable(Linked(Root(), 0), 1);
    ChainShape();
    DropReachable(Linked(Linked(Root(), 0), 1), 1);
  }

  lemma DropReachable(s: State, t: nat)
    requires Reachable(s) && s.threads == [Idle] && s.dropped == {} && t < |s.flags|
    ensures Reachable(s.(dropped := {t}))
  {
    ReachableStep(s, Drop(t), s.(dropped := {t}));
  }

  lemma BrokenChainFlagged()
    ensures Reachable(BrokenChain(Cancel([Frame(0, AwaitLock)]), true, {0}))
  {
    BrokenChainReachable();
    var s0, s1 := BrokenChain(Idle, false, {}), BrokenChain(Cancel([Frame(0, SetFlag)]), false, {0});
    ReachableStep(s0, CallCancel(0, 0), s1);
    assert [Frame(0, SetFlag)][..0] + TopAfter(s1, Frame(0, SetFlag)) == [Frame(0, AwaitLock)];
    ReachableStep(s1, Advance(0), BrokenChain(Cancel([Frame(0, AwaitLock)]), true, {0}));
  }

  lemma BrokenChainVisited()
    requires Reachable(BrokenChain(Cancel([Frame(0, AwaitLock)]), true, {0}))
    ensures Reachable(BrokenChain(Idle, true, {0}))
  {
    var f2, f3, f4 := Frame(0, AwaitLock), Frame(0, Visiting(0)), Frame(0, Visiting(1));
    var s2, s3, s4 := BrokenChain(Cancel([f2]), true, {0}), BrokenChain(Cancel([f3]), true, {0}),
        BrokenChain(Cancel([f4]), true, {0});
    assert [f2][..0] + TopAfter(s2, f2) == [f3];
    ReachableStep(s2, Advance(0), s3);
    assert [f3][..0] + TopAfter(s3, f3) == [f4];
    ReachableStep(s3, Advance(0), s4);
    assert [f4][..0] + TopAfter(s4, f4) == [];
    ReachableStep(s4, Advance(0), BrokenChain(Idle, true, {0}));
  }

  /** The link from a token to its descendants runs through the handler lists of the tokens in between:
      when the middle one is dropped, cancelling the first leaves the last uncancelled for good. */
  lemma DroppedLinkLosesCancellation()
    ensures exists s :: Reachable(s) && Quiescent(s) && 0 in s.requested && Ancestor(s, 0, 2) && |s.flags| == 3
                        && !s.flags[2] && 2 !in s.dropped && GapAt(s, 0, 1, 2)
  {
    BrokenChainFlagged();
    BrokenChainVisited();
    var s5 := BrokenChain(Idle, true, {0});
    assert Ancestor(s5, 0, 1) && Ancestor(s5, 0, 2);
    assert OnlyThrough(s5, 1, 1) && OnlyThrough(s5, 1, 2);
  }
}
