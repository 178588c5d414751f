/** A call that runs alone: from a settled state the interleaved steps of one call end where the method
    of the token class ends. */
module CancellationAlone {
  import opened Domain
  import opened CancellationTokens
  import opened CancellationTheorems
  import opened TokenForests

  // ---- links as handler lists and as sources ----

  lemma {:induction false} ChainPrepend(s: State, a: nat, c: nat, t: nat)
    requires a < c < |s.parents| && s.parents[c] == Some(a) && c !in s.dropped && LiveChain(s, c, t)
    ensures LiveChain(s, a, t)
    decreases t
  {
    if c != t {
      ChainPrepend(s, a, c, s.parents[t].value);
    }
  }

  lemma {:induction false} ReachIsChain(s: State, a: nat, t: nat)
    requires ForestOk(s) && LinksUp(s.handlers) && a < |s.handlers| && Reaches(s.handlers, s.dropped, a, t)
    ensures LiveChain(s, a, t)
    decreases |s.handlers| - a
  {
    if a != t {
      ViaIsChain(s, a, |s.handlers[a]|, t);
    }
  }

  lemma {:induction false} ViaIsChain(s: State, a: nat, n: nat, t: nat)
    requires ForestOk(s) && LinksUp(s.handlers) && a < |s.handlers| && n <= |s.handlers[a]|
    requires ReachesVia(s.handlers, s.dropped, a, n, t)
    ensures LiveChain(s, a, t)
    decreases |s.handlers| - a, 0, n
  {
    if ReachesVia(s.handlers, s.dropped, a, n - 1, t) {
      ViaIsChain(s, a, n - 1, t);
    } else {
      assert LinksTo(s.parents, s.handlers[a], a);
      ReachIsChain(s, s.handlers[a][n - 1], t);
      ChainPrepend(s, a, s.handlers[a][n - 1], t);
    }
  }

  lemma {:induction false} ViaGrows(handlers: seq<seq<nat>>, dropped: set<nat>, a: nat, i: nat, n: nat, t: nat)
    requires LinksUp(handlers) && a < |handlers| && i < n <= |handlers[a]|
    requires handlers[a][i] !in dropped && Reaches(handlers, dropped, handlers[a][i], t)
    ensures ReachesVia(handlers, dropped, a, n, t)
    decreases n
  {
    if i < n - 1 {
      ViaGrows(handlers, dropped, a, i, n - 1, t);
    }
  }

  lemma {:induction false} ReachAppend(handlers: seq<seq<nat>>, dropped: set<nat>, a: nat, p: nat, t: nat)
    requires LinksUp(handlers) && a < |handlers| && p < |handlers| && t in handlers[p] && t !in dropped
    requires Reaches(handlers, dropped, a, p)
    ensures Reaches(handlers, dropped, a, t)
    decreases |handlers| - a
  {
    if a == p {
      var i :| 0 <= i < |handlers[a]| && handlers[a][i] == t;
      ViaGrows(handlers, dropped, a, i, |handlers[a]|, t);
    } else {
      ViaAppend(handlers, dropped, a, |handlers[a]|, p, t);
    }
  }

  lemma {:induction false} ViaAppend(handlers: seq<seq<nat>>, dropped: set<nat>, a: nat, n: nat, p: nat, t: nat)
    requires LinksUp(handlers) && a < |handlers| && n <= |handlers[a]| && p < |handlers| && t in handlers[p]
             && t !in dropped
    requires ReachesVia(handlers, dropped, a, n, p)
    ensures ReachesVia(handlers, dropped, a, n, t)
    decreases |handlers| - a, 0, n
  {
    if ReachesVia(handlers, dropped, a, n - 1, p) {
      ViaAppend(handlers, dropped, a, n - 1, p, t);
    } else {
      ReachAppend(handlers, dropped, handlers[a][n - 1], p, t);
    }
  }

  lemma {:induction false} ChainIsReach(s: State, a: nat, t: nat)
    requires Invariant(s) && Quiescent(s) && LinksUp(s.handlers) && a < |s.handlers| && t < |s.handlers|
             && LiveChain(s, a, t)
    ensures Reaches(s.handlers, s.dropped, a, t)
    decreases t
  {
    if a != t {
      var p := s.parents[t].value;
      assert LinkOk(s, p, t);
      ChainIsReach(s, a, p);
      ReachAppend(s.handlers, s.dropped, a, p, t);
    }
  }

  lemma LinksGoUp(s: State)
    requires ForestOk(s)
    ensures LinksUp(s.handlers)
  {
    forall p, i | 0 <= p < |s.handlers| && 0 <= i < |s.handlers[p]| ensures p < s.handlers[p][i] < |s.handlers| {
      assert LinksTo(s.parents, s.handlers[p], p);
    }
  }

  // ---- a cancel that runs alone ----

  ghost predicate OnlyAdvances(schedule: seq<Op>) {
    forall k :: 0 <= k < |schedule| ==> schedule[k].Advance?
  }

  /** Nobody but a cancel of `th` is running, and it changes nothing but flags. */
  ghost predicate SameButFlags(s: State, s': State, th: nat) {
    && s'.handlers == s.handlers && s'.parents == s.parents && s'.dropped == s.dropped && s'.requested == s.requested
    && |s'.flags| == |s.flags| && |s'.threads| == |s.threads|
    && (forall t :: t in s.dropped && t < |s.flags| ==> s'.flags[t] == s.flags[t])
    && (forall o :: 0 <= o < |s'.threads| ==> !s'.threads[o].Create? && (o != th ==> s'.threads[o].Idle?))
  }

  lemma {:induction false} AdvancesChangeFlagsOnly(threads: nat, ops: seq<Op>, schedule: seq<Op>, th: nat)
    requires Execute(threads, ops).Some? && OnlyAdvances(schedule) && Execute(threads, ops + schedule).Some?
    requires SameButFlags(Execute(threads, ops).value, Execute(threads, ops).value, th)
    ensures SameButFlags(Execute(threads, ops).value, Execute(threads, ops + schedule).value, th)
    decreases |schedule|
  {
    if schedule == [] {
      assert ops + schedule == ops;
    } else {
      var m, s', o := LastAdvance(threads, ops, schedule);
      AdvancesChangeFlagsOnly(threads, ops, schedule[..|schedule| - 1], th);
      CancelStepAlone(Execute(threads, ops).value, m, s', th, o);
    }
  }

  lemma LastAdvance(threads: nat, ops: seq<Op>, schedule: seq<Op>) returns (m: State, s': State, o: nat)
    requires OnlyAdvances(schedule) && schedule != [] && Execute(threads, ops + schedule).Some?
    ensures Execute(threads, ops + schedule[..|schedule| - 1]) == Some(m)
            && Execute(threads, ops + schedule) == Some(s')
    ensures AdvanceStep(m, o) == Some(s')
    ensures forall t :: t in m.dropped && t < |m.flags| ==> s'.flags[t] == m.flags[t]
  {
    var n := |schedule| - 1;
    var before := ops + schedule[..n];
    assert (ops + schedule)[..|ops + schedule| - 1] == before;
    m, s', o := Execute(threads, before).value, Execute(threads, ops + schedule).value, schedule[n].thread;
    DroppedFlagsAreFinal(threads, before, schedule[n]);
  }

  lemma CancelStepAlone(s: State, m: State, s': State, th: nat, o: nat)
    requires SameButFlags(s, m, th) && AdvanceStep(m, o) == Some(s')
    requires forall t :: t in m.dropped && t < |m.flags| ==> s'.flags[t] == m.flags[t]
    ensures SameButFlags(s, s', th)
  {
  }

  lemma DroppedFlagsAreFinal(threads: nat, ops: seq<Op>, op: Op)
    requires Execute(threads, ops).Some? && Step(Execute(threads, ops).value, op).Some?
    ensures forall t :: t in Execute(threads, ops).value.dropped ==>
              t < |Execute(threads, ops).value.flags|
              && Step(Execute(threads, ops).value, op).value.flags[t] == Execute(threads, ops).value.flags[t]
  {
    forall t | t in Execute(threads, ops).value.dropped
      ensures t < |Execute(threads, ops).value.flags|
              && Step(Execute(threads, ops).value, op).value.flags[t] == Execute(threads, ops).value.flags[t] {
      DroppedFlagIsFinal(threads, ops, op, t);
    }
  }

  /** One more request flags exactly what is below it over owned tokens. */
  lemma {:induction false} OneMoreRequest(s: State, s': State, token: nat, t: nat)
    requires Invariant(s) && AllRooted(s) && Quiescent(s) && Invariant(s') && AllRooted(s') && Quiescent(s')
    requires s'.parents == s.parents && s'.dropped == s.dropped && s'.requested == s.requested + {token}
    requires forall d :: d in s.dropped && d < |s.flags| ==> s'.flags[d] == s.flags[d]
    requires t < |s.flags| == |s'.flags| && token !in s.dropped
    ensures s'.flags[t] <==> s.flags[t] || LiveChain(s, token, t)
    decreases t
  {
    if t !in s.dropped {
      LinkLaw(s, t);
      LinkLaw(s', t);
      if s.parents[t].Some? {
        OneMoreRequest(s, s', token, s.parents[t].value);
      }
    }
  }

  /** From a settled state, a `cancel` that runs alone ends, in every schedule, with exactly the flags the
      method `Cancel` of the token class promises, and changes nothing else. */
  lemma CancelAlone(threads: nat, ops: seq<Op>, th: nat, token: nat, schedule: seq<Op>)
    requires Execute(threads, ops).Some? && Quiescent(Execute(threads, ops).value)
    requires OnlyAdvances(schedule) && Execute(threads, ops + [CallCancel(th, token)] + schedule).Some?
    requires Quiescent(Execute(threads, ops + [CallCancel(th, token)] + schedule).value)
    ensures var s, s' := Execute(threads, ops).value, Execute(threads, ops + [CallCancel(th, token)] + schedule).value;
            && LinksUp(s.handlers) && |s'.flags| == |s.flags| == |s.handlers| && token < |s.flags|
            && s'.handlers == s.handlers && s'.dropped == s.dropped
            && (forall t: nat :: t < |s.flags| ==>
                  (s'.flags[t] <==> s.flags[t] || Reaches(s.handlers, s.dropped, token, t)))
  {
    var called := ops + [CallCancel(th, token)];
    assert called[..|ops|] == ops;
    EarlierRuns(threads, called, schedule);
    var s, s', s1 := Execute(threads, ops).value, Execute(threads, called + schedule).value,
        Execute(threads, called).value;
    AdvancesChangeFlagsOnly(threads, called, schedule, th);
    ReachableInvariant(threads, ops);
    ReachableInvariant(threads, called + schedule);
    ReachableRooted(threads, ops);
    ReachableRooted(threads, called + schedule);
    LinksGoUp(s);
    forall t: nat | t < |s.flags| ensures s'.flags[t] <==> s.flags[t] || Reaches(s.handlers, s.dropped, token, t) {
      OneMoreRequest(s, s', token, t);
      if LiveChain(s, token, t) {
        ChainIsReach(s, token, t);
      }
      if Reaches(s.handlers, s.dropped, token, t) {
        ReachIsChain(s, token, t);
      }
    }
  }

  lemma {:induction false} EarlierRuns(threads: nat, ops: seq<Op>, schedule: seq<Op>)
    requires Execute(threads, ops + schedule).Some?
    ensures Execute(threads, ops).Some?
    decreases |schedule|
  {
    if schedule == [] {
      assert ops + schedule == ops;
    } else {
      assert (ops + schedule)[..|ops + schedule| - 1] == ops + schedule[..|schedule| - 1];
      EarlierRuns(threads, ops, schedule[..|schedule| - 1]);
    }
  }

  // ---- a creation that runs alone ----

  /** What a lone creation of `child` from `source` has done so far: registered it or not yet. */
  ghost predicate CreationStage(s: State, s': State, th: nat, source: nat, registered: bool)
    requires source < |s.handlers|
  {
    var child := |s.flags|;
    && s'.parents == s.parents + [Some(source)] && s'.dropped == s.dropped && s'.requested == s.requested
    && |s'.flags| == child + 1 && |s'.threads| == |s.threads| && th < |s.threads|
    && (forall o :: 0 <= o < |s'.threads| && o != th ==> s'.threads[o].Idle?)
    && (forall t :: t in s.dropped && t < child ==> s'.flags[t] == s.flags[t])
    && (if registered
        then s'.handlers == s.handlers[source := s.handlers[source] + [child]] + [[]]
             && (s'.threads[th].Create? ==> s'.threads[th] == Create(source, child, CheckFlag))
        else s'.handlers == s.handlers + [[]] && s'.threads[th] == Create(source, child, Register))
  }

  lemma CreationStep(s: State, m: State, s': State, th: nat, source: nat, registered: bool, o: nat)
    requires |s.flags| == |s.handlers| && source < |s.handlers| && CreationStage(s, m, th, source, registered)
    requires AdvanceStep(m, o) == Some(s')
    requires forall t :: t in m.dropped && t < |m.flags| ==> s'.flags[t] == m.flags[t]
    ensures CreationStage(s, s', th, source, true)
  {
    assert o == th;
    if !registered {
      assert m.handlers[source := m.handlers[source] + [|s.flags|]] ==
             s.handlers[source := s.handlers[source] + [|s.flags|]] + [[]];
    }
  }

  lemma {:induction false} CreationRuns(threads: nat, ops: seq<Op>, th: nat, source: nat, schedule: seq<Op>)
    requires Execute(threads, ops).Some? && Quiescent(Execute(threads, ops).value) && OnlyAdvances(schedule)
    requires Execute(threads, ops + [CallCreate(th, source)] + schedule).Some?
    ensures var s, s' := Execute(threads, ops).value, Execute(threads, ops + [CallCreate(th, source)] + schedule).value;
            |s.flags| == |s.handlers| && source < |s.handlers| && CreationStage(s, s', th, source, schedule != [])
    decreases |schedule|
  {
    var called := ops + [CallCreate(th, source)];
    assert called[..|ops|] == ops;
    ReachableInvariant(threads, ops);
    if schedule == [] {
      assert called + schedule == called;
    } else {
      var m, s', o := LastAdvance(threads, called, schedule);
      CreationRuns(threads, ops, th, source, schedule[..|schedule| - 1]);
      CreationStep(Execute(threads, ops).value, m, s', th, source, |schedule| > 1, o);
    }
  }

  /** Without a new request no old token changes, and a new one takes over the flag of its source. */
  lemma {:induction false} NoNewRequest(s: State, s': State, source: nat, t: nat)
    requires Invariant(s) && AllRooted(s) && Quiescent(s) && Invariant(s') && AllRooted(s') && Quiescent(s')
    requires source < |s.flags| && s'.parents == s.parents + [Some(source)]
    requires s'.dropped == s.dropped && s'.requested == s.requested && (forall d :: d in s.dropped ==> d < |s.flags|)
    requires forall d :: d in s.dropped && d < |s.flags| ==> s'.flags[d] == s.flags[d]
    requires t <= |s.flags|
    ensures s'.flags[t] <==> if t < |s.flags| then s.flags[t] else s.flags[source]
    decreases t
  {
    if t !in s.dropped {
      LinkLaw(s', t);
      if t == |s.flags| {
        assert t in s.requested ==> RequestOk(s, t);
        NoNewRequest(s, s', source, source);
      } else {
        LinkLaw(s, t);
        if s.parents[t].Some? {
          NoNewRequest(s, s', source, s.parents[t].value);
        }
      }
    }
  }

  /** From a settled state, a `create_linked_token` that runs alone ends as the method of the class does. */
  lemma CreateAlone(threads: nat, ops: seq<Op>, th: nat, source: nat, schedule: seq<Op>)
    requires Execute(threads, ops).Some? && Quiescent(Execute(threads, ops).value) && OnlyAdvances(schedule)
    requires Execute(threads, ops + [CallCreate(th, source)] + schedule).Some?
    requires Quiescent(Execute(threads, ops + [CallCreate(th, source)] + schedule).value)
    ensures var s, s' := Execute(threads, ops).value, Execute(threads, ops + [CallCreate(th, source)] + schedule).value;
            && source < |s.flags| == |s.handlers| && s'.flags == s.flags + [s.flags[source]]
            && s'.handlers == s.handlers[source := s.handlers[source] + [|s.flags|]] + [[]] && s'.dropped == s.dropped
  {
    var all := ops + [CallCreate(th, source)] + schedule;
    var s, s' := Execute(threads, ops).value, Execute(threads, all).value;
    CreationRuns(threads, ops, th, source, schedule);
    ReachableInvariant(threads, ops);
    ReachableInvariant(threads, all);
    ReachableRooted(threads, ops);
    ReachableRooted(threads, all);
    ReachableDropsUnused(threads, ops);
    forall t: nat | t <= |s.flags| ensures s'.flags[t] == (s.flags + [s.flags[source]])[t] {
      NoNewRequest(s, s', source, t);
    }
  }
}
