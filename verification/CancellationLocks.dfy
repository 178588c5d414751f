/** The mutex of a handler list: one call at a time goes through it, and it does not change meanwhile. */
module CancellationLocks {
  import opened Domain
  import opened CancellationTokens

  /** The frame at depth `k` of a thread's `cancel` calls the handlers of `t`. */
  ghost predicate Visits(s: State, th: nat, k: nat, t: nat) {
    && th < |s.threads| && s.threads[th].Cancel? && k < |s.threads[th].stack|
    && s.threads[th].stack[k].token == t && s.threads[th].stack[k].pc.Visiting?
  }

  ghost predicate Exclusive(s: State) {
    forall th, k, th', k', t :: Visits(s, th, k, t) && Visits(s, th', k', t) ==> th == th' && k == k'
  }

  lemma VisitLocks(s: State, th: nat, k: nat, t: nat)
    requires Visits(s, th, k, t)
    ensures Locked(s, t)
  {
    assert HoldsLock(s.threads[th], t);
  }

  /** A frame visits after a step of its thread only if it did before, or if nothing was locked. */
  lemma VisitAfterCancel(s: State, th: nat, s': State, k: nat, t: nat)
    requires th < |s.threads| && s.threads[th].Cancel? && Step(s, Advance(th)) == Some(s') && Visits(s', th, k, t)
    ensures Visits(s, th, k, t) || (!Locked(s, t) && k == |s.threads[th].stack| - 1)
  {
    var stack := s.threads[th].stack;
    var top := stack[|stack| - 1];
    assert s'.threads[th].stack == stack[..|stack| - 1] + TopAfter(s, top);
  }

  lemma OthersKeepVisits(s: State, op: Op, s': State, th: nat, k: nat, t: nat)
    requires Step(s, op) == Some(s') && Visits(s', th, k, t) && op != Advance(th)
    ensures Visits(s, th, k, t)
  {
  }

  lemma NoVisitYet(s: State, th: nat, s': State, k: nat, t: nat)
    requires th < |s.threads| && !s.threads[th].Cancel? && Step(s, Advance(th)) == Some(s')
    ensures !Visits(s', th, k, t)
  {
  }

  lemma VisitBefore(s: State, op: Op, s': State, th: nat, k: nat, t: nat)
    requires Step(s, op) == Some(s') && Visits(s', th, k, t)
    ensures || Visits(s, th, k, t)
            || (op == Advance(th) && th < |s.threads| && s.threads[th].Cancel? && !Locked(s, t)
                && k == |s.threads[th].stack| - 1)
  {
    if op == Advance(th) {
      if s.threads[th].Cancel? {
        VisitAfterCancel(s, th, s', k, t);
      } else {
        NoVisitYet(s, th, s', k, t);
      }
    } else {
      OthersKeepVisits(s, op, s', th, k, t);
    }
  }

  lemma StepKeepsExclusive(s: State, op: Op, s': State)
    requires Exclusive(s) && Step(s, op) == Some(s')
    ensures Exclusive(s')
  {
    forall th, k, th', k', t | Visits(s', th, k, t) && Visits(s', th', k', t) ensures th == th' && k == k' {
      VisitBefore(s, op, s', th, k, t);
      VisitBefore(s, op, s', th', k', t);
      if Visits(s, th, k, t) {
        VisitLocks(s, th, k, t);
      }
      if Visits(s, th', k', t) {
        VisitLocks(s, th', k', t);
      }
    }
  }

  /** In every interleaving at most one `cancel` call, at one depth of its recursion, goes through the handlers
      of a token. */
  lemma {:induction false} OneVisitor(threads: nat, ops: seq<Op>)
    requires Execute(threads, ops).Some?
    ensures Exclusive(Execute(threads, ops).value)
    decreases |ops|
  {
    if ops != [] {
      var before := Execute(threads, ops[..|ops| - 1]).value;
      OneVisitor(threads, ops[..|ops| - 1]);
      StepKeepsExclusive(before, ops[|ops| - 1], Execute(threads, ops).value);
    }
  }

  /** While a call goes through the handlers of a token none is added. */
  lemma VisitedListIsStable(s: State, op: Op, s': State, th: nat, k: nat, t: nat)
    requires Step(s, op) == Some(s') && Visits(s, th, k, t) && t < |s.handlers|
    ensures t < |s'.handlers| && s'.handlers[t] == s.handlers[t]
  {
    VisitLocks(s, th, k, t);
  }

  /** A handler list is only ever appended to. */
  lemma HandlersGrow(s: State, op: Op, s': State, t: nat)
    requires Step(s, op) == Some(s') && t < |s.handlers|
    ensures t < |s'.handlers| && s.handlers[t] <= s'.handlers[t]
  {
  }
}
