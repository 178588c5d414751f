/** Which calls win, that the processor settles, and in which order the handlers are launched. */
module BlockerProgress {
  import opened Domain
  import opened BlockerProtocol
  import opened BlockerSafety
  import opened BlockerTimes

  // ---- the last call that counts decides ----

  ghost predicate HoldsBlock(s: State, id: BlockerId) {
    id in s.blockers && !s.blockers[id].progress.isUnblockRequested
  }

  /** What one step does to the request of `id`: only a `block` that counts sets it and only `unblock`
      clears it, whatever the processor does. */
  lemma StepDecides(s: State, op: Op, id: BlockerId)
    requires Step(s, op).Done?
    ensures HoldsBlock(Step(s, op).state, id) ==
            match op
            case Block(i, blockType) => (i == id && Counts(EndOf(s, id), blockType)) || HoldsBlock(s, id)
            case Unblock(i) => i != id && HoldsBlock(s, id)
            case _ => HoldsBlock(s, id)
  {
    if op.HandleNext? && s.received && s.events != [] {
      HandleEffect(s);
      var s', e := Step(s, op).state, s.events[0];
      if id != e.id {
        assert id in s'.blockers <==> id in s'.blockers - {e.id};
        assert id in s.blockers <==> id in s.blockers - {e.id};
        assert id in s.blockers ==> s'.blockers[id] == (s'.blockers - {e.id})[id] == s.blockers[id];
      }
    }
  }

  /** At every point of every run, not only when the queue is empty: an id whose last call that counts was
      `block` is blocked and no unblock of it is in progress, so a re-block that counts at any stage of an
      in-flight unblock prevents the removal. */
  lemma {:induction false} LastAcceptedCallHolds(accounts: set<Account>, ops: seq<Op>, id: BlockerId)
    requires Execute(accounts, ops).Done?
    ensures WantsBlocked(accounts, ops, id) <==> HoldsBlock(Execute(accounts, ops).state, id)
  {
    if ops != [] {
      var earlier := ops[..|ops| - 1];
      LastAcceptedCallHolds(accounts, earlier, id);
      RunsAsCalled(accounts, earlier, id);
      StepDecides(Execute(accounts, earlier).state, ops[|ops| - 1], id);
    }
  }

  /** Once the channel is empty, an id is blocked exactly when its last call that counts was `block`. */
  lemma QuiescentDecides(accounts: set<Account>, ops: seq<Op>, id: BlockerId)
    requires Execute(accounts, ops).Done? && Execute(accounts, ops).state.events == []
    ensures id in Execute(accounts, ops).state.blockers <==> WantsBlocked(accounts, ops, id)
  {
    LastAcceptedCallHolds(accounts, ops, id);
    ReachableInvariant(accounts, ops);
    assert IdInvariant(Execute(accounts, ops).state, id);
  }

  // ---- the channel drains ----

  function KindWeight(kind: EventType): nat {
    match kind
    case MoveToBlocked => 3
    case UnblockRequested => 3
    case MoveBlockedToBeforeUnblocked => 2
    case MoveBeforeUnblockedToUnblocked => 1
  }

  function Weight(events: seq<Event>): nat {
    if events == [] then 0 else KindWeight(events[0].kind) + Weight(events[1..])
  }

  lemma {:induction false} WeightPush(events: seq<Event>, e: Event)
    ensures Weight(events + [e]) == Weight(events) + KindWeight(e.kind)
    ensures Weight(events) <= 3 * |events|
  {
    if events == [] {
      assert events + [e] == [e];
    } else {
      WeightPush(events[1..], e);
      assert (events + [e])[1..] == events[1..] + [e];
    }
  }

  lemma HandleLowersWeight(s: State)
    requires s.received && s.events != [] && HandleStep(s).Done?
    ensures Weight(HandleStep(s).state.events) < Weight(s.events)
    ensures HandleStep(s).state.blockers.Keys <= s.blockers.Keys
  {
    HandleEffect(s);
    var s', e := HandleStep(s).state, s.events[0];
    var m := MoveNext(s.blockers[e.id].progress, e.kind);
    if m.next.Some? {
      WeightPush(s.events[1..], Event(e.id, m.next.value));
    } else {
      assert s'.events == s.events[1..];
    }
    forall id | id in s'.blockers ensures id in s.blockers {
      assert id != e.id ==> id in s'.blockers - {e.id} && id in s.blockers - {e.id};
    }
  }

  /** Rounds of the processor: it handles the event it has taken, if any, and takes the next one. */
  function Rounds(n: nat): seq<Op> {
    if n == 0 then [] else Rounds(n - 1) + [HandleNext] + [Receive]
  }

  lemma ExecuteMore(accounts: set<Account>, ops: seq<Op>, op: Op)
    requires Execute(accounts, ops).Done? && Step(Execute(accounts, ops).state, op).Done?
    ensures Execute(accounts, ops + [op]).Done?
    ensures Execute(accounts, ops + [op]).state == Step(Execute(accounts, ops).state, op).state
  {
    assert (ops + [op])[..|ops|] == ops;
  }

  /** With no further calls the processor handles everything within three rounds per event and one more,
      unless it is jammed, when its next step panics; and then exactly the ids whose last call that counts was
      `block` are blocked: no unblock is lost and no block is dropped. */
  lemma {:induction false} RunSettles(accounts: set<Account>, ops: seq<Op>) returns (n: nat)
    requires Execute(accounts, ops).Done?
    ensures n <= 3 * |Execute(accounts, ops).state.events| + 1
    ensures if Jammed(Execute(accounts, ops).state) then Execute(accounts, ops + [HandleNext]).Panic?
            else
              && Execute(accounts, ops + Rounds(n)).Done? && Execute(accounts, ops + Rounds(n)).state.events == []
              && forall id :: id in Execute(accounts, ops + Rounds(n)).state.blockers <==>
                              WantsBlocked(accounts, ops, id)
  {
    var s := Execute(accounts, ops).state;
    if Jammed(s) {
      ReachableInvariant(accounts, ops);
      HandlerPanicsIffJammed(s);
      assert (ops + [HandleNext])[..|ops|] == ops;
      n := 0;
    } else {
      n := Settle(accounts, ops);
      if s.events != [] {
        WeightPush(s.events, s.events[0]);
      }
      forall id ensures id in Execute(accounts, ops + Rounds(n)).state.blockers <==> WantsBlocked(accounts, ops, id) {
        QuiescentDecides(accounts, ops + Rounds(n), id);
        RoundsKeepWants(accounts, ops, n, id);
      }
    }
  }

  lemma {:induction false} RoundsKeepWants(accounts: set<Account>, ops: seq<Op>, n: nat, id: BlockerId)
    ensures WantsBlocked(accounts, ops + Rounds(n), id) <==> WantsBlocked(accounts, ops, id)
  {
    if n == 0 {
      assert ops + Rounds(0) == ops;
    } else {
      var earlier := ops + Rounds(n - 1);
      assert ops + Rounds(n) == earlier + [HandleNext] + [Receive];
      ProcessorKeepsWant(accounts, earlier + [HandleNext], Receive, id);
      ProcessorKeepsWant(accounts, earlier, HandleNext, id);
      RoundsKeepWants(accounts, ops, n - 1, id);
    }
  }

  lemma ProcessorKeepsWant(accounts: set<Account>, ops: seq<Op>, op: Op, id: BlockerId)
    requires op.Receive? || op.HandleNext?
    ensures WantsBlocked(accounts, ops + [op], id) <==> WantsBlocked(accounts, ops, id)
  {
    assert (ops + [op])[..|ops|] == ops;
  }

  /** Handling an event launches the Unblocked handlers of a blocker exactly when it removes it. */
  lemma UnblockedIffRemoved(s: State, id: BlockerId)
    requires s.received && s.events != [] && HandleStep(s).Done?
    ensures Launch(id, Unblocked) in HandleStep(s).launched <==>
            id in s.blockers && id !in HandleStep(s).state.blockers
  {
    HandleEffect(s);
    var s', e := HandleStep(s).state, s.events[0];
    if id != e.id {
      assert id in s'.blockers <==> id in s'.blockers - {e.id};
      assert id in s.blockers <==> id in s.blockers - {e.id};
    }
  }

  function Work(s: State): nat {
    Weight(s.events) + if !s.received && s.events != [] then 1 else 0
  }

  /** The run so far did not panic, and the processor alone will not. */
  ghost predicate Running(accounts: set<Account>, ops: seq<Op>) {
    Execute(accounts, ops).Done? && !Jammed(Execute(accounts, ops).state)
  }

  function WorkAfter(accounts: set<Account>, ops: seq<Op>): nat
    requires Execute(accounts, ops).Done?
  {
    Work(Execute(accounts, ops).state)
  }

  /** A round lowers the work, and with the next event taken the channel has room for what follows it. */
  lemma RoundLowersWork(accounts: set<Account>, ops: seq<Op>)
    requires Running(accounts, ops) && Execute(accounts, ops).state.events != []
    ensures Running(accounts, ops + [HandleNext] + [Receive])
    ensures WorkAfter(accounts, ops + [HandleNext] + [Receive]) < WorkAfter(accounts, ops)
  {
    var s := Execute(accounts, ops).state;
    ReachableInvariant(accounts, ops);
    HandlerPanicsIffJammed(s);
    ExecuteMore(accounts, ops, HandleNext);
    ExecuteMore(accounts, ops + [HandleNext], Receive);
    ChannelWithinCapacity(accounts, ops + [HandleNext]);
    if s.received {
      HandleLowersWeight(s);
      HandleEffect(s);
    }
  }

  lemma {:induction false} RoundsFirst(n: nat)
    ensures Rounds(n + 1) == [HandleNext] + [Receive] + Rounds(n)
  {
    if n > 0 {
      RoundsFirst(n - 1);
    }
  }

  ghost predicate Emptied(accounts: set<Account>, ops: seq<Op>) {
    Execute(accounts, ops).Done? && Execute(accounts, ops).state.events == []
  }

  lemma EmptiedLater(accounts: set<Account>, ops: seq<Op>, n: nat)
    requires Emptied(accounts, ops + [HandleNext] + [Receive] + Rounds(n))
    ensures Emptied(accounts, ops + Rounds(n + 1))
  {
    RoundsFirst(n);
    assert ops + Rounds(n + 1) == ops + [HandleNext] + [Receive] + Rounds(n);
  }

  lemma {:induction false} Settle(accounts: set<Account>, ops: seq<Op>) returns (n: nat)
    requires Running(accounts, ops)
    ensures n <= WorkAfter(accounts, ops) && Emptied(accounts, ops + Rounds(n))
    decreases WorkAfter(accounts, ops)
  {
    if Execute(accounts, ops).state.events == [] {
      n := 0;
      assert ops + Rounds(0) == ops;
    } else {
      RoundLowersWork(accounts, ops);
      var rest := Settle(accounts, ops + [HandleNext] + [Receive]);
      n := rest + 1;
      EmptiedLater(accounts, ops, rest);
    }
  }

  // ---- the order of handler moments ----

  function MomentsOf(log: seq<Launch>, id: BlockerId): seq<Moment> {
    if log == [] then []
    else
      var last := log[|log| - 1];
      MomentsOf(log[..|log| - 1], id) + (if last.id == id then [last.moment] else [])
  }

  predicate MayFollow(a: Moment, b: Moment) {
    match a
    case Blocked => b == BeforeUnblocked
    case BeforeUnblocked => b != Blocked
    case Unblocked => b == Blocked
  }

  /** A prefix of repetitions of: Blocked, one or more BeforeUnblocked, Unblocked. */
  ghost predicate Lifetimes(moments: seq<Moment>) {
    && (moments != [] ==> moments[0] == Blocked)
    && forall i {:trigger moments[i]} :: 0 < i < |moments| ==> MayFollow(moments[i - 1], moments[i])
  }

  predicate BetweenLifetimes(moments: seq<Moment>) {
    moments == [] || moments[|moments| - 1] == Unblocked
  }

  ghost predicate MomentInvariant(s: State, id: BlockerId, moments: seq<Moment>) {
    && Lifetimes(moments)
    && (BetweenLifetimes(moments) <==> id !in s.blockers || s.blockers[id].progress.status.WaitBlockedMove?)
    && (id in s.blockers && s.blockers[id].progress.status.WaitUnblockedMove? ==>
          moments[|moments| - 1] == BeforeUnblocked)
  }

  lemma CallKeepsMoments(s: State, op: Op, id: BlockerId, moments: seq<Moment>)
    requires !op.HandleNext? && Step(s, op).Done? && MomentInvariant(s, id, moments)
    ensures MomentInvariant(Step(s, op).state, id, moments) && Step(s, op).launched == []
  {
  }

  /** One move of the processor extends the moments of its blocker as the lifetimes demand. */
  lemma MoveExtendsLifetimes(p: Progress, kind: EventType, moments: seq<Moment>)
    requires Lifetimes(moments)
    requires BetweenLifetimes(moments) <==> p.status.WaitBlockedMove?
    requires p.status.WaitUnblockedMove? ==> moments[|moments| - 1] == BeforeUnblocked
    ensures var m := MoveNext(p, kind);
            var moments' := moments + (if m.launch.Some? then [m.launch.value] else []);
            && Lifetimes(moments')
            && (BetweenLifetimes(moments') <==> m.progress.None? || m.progress.value.status.WaitBlockedMove?)
            && (m.progress.Some? && m.progress.value.status.WaitUnblockedMove? ==>
                  moments'[|moments'| - 1] == BeforeUnblocked)
  {
    if MoveNext(p, kind).launch.None? {
      assert moments + [] == moments;
    }
  }

  lemma HandleKeepsMoments(s: State, id: BlockerId, moments: seq<Moment>)
    requires s.received && s.events != [] && HandleStep(s).Done? && MomentInvariant(s, id, moments)
    ensures MomentInvariant(HandleStep(s).state, id, moments + MomentsOf(HandleStep(s).launched, id))
  {
    HandleEffect(s);
    var s', launched, e := HandleStep(s).state, HandleStep(s).launched, s.events[0];
    var m := MoveNext(s.blockers[e.id].progress, e.kind);
    assert launched == if m.launch.Some? then [Launch(e.id, m.launch.value)] else [];
    assert MomentsOf(launched, id) == if id == e.id && m.launch.Some? then [m.launch.value] else [];
    if id == e.id {
      MoveExtendsLifetimes(s.blockers[id].progress, e.kind, moments);
    } else {
      assert moments + [] == moments;
      assert id in s'.blockers <==> id in s'.blockers - {e.id};
      assert id in s.blockers <==> id in s.blockers - {e.id};
      assert id in s.blockers ==> s'.blockers[id] == (s'.blockers - {e.id})[id] == s.blockers[id];
    }
  }

  lemma StepKeepsMoments(s: State, op: Op, id: BlockerId, moments: seq<Moment>)
    requires Step(s, op).Done? && MomentInvariant(s, id, moments)
    ensures MomentInvariant(Step(s, op).state, id, moments + MomentsOf(Step(s, op).launched, id))
  {
    if op.HandleNext? && s.received && s.events != [] {
      HandleKeepsMoments(s, id, moments);
    } else {
      assert moments + MomentsOf([], id) == moments;
      if !op.HandleNext? {
        CallKeepsMoments(s, op, id, moments);
      }
    }
  }

  lemma {:induction false} MomentsConcat(a: seq<Launch>, b: seq<Launch>, id: BlockerId)
    ensures MomentsOf(a + b, id) == MomentsOf(a, id) + MomentsOf(b, id)
  {
    if b == [] {
      assert a + b == a;
    } else {
      MomentsConcat(a, b[..|b| - 1], id);
      assert (a + b)[..|a + b| - 1] == a + b[..|b| - 1];
    }
  }

  /** For every run and every id the launched moments are lifetimes in order, whatever re-blocks
      intervene, and a lifetime is open exactly from the launch of Blocked to the removal. */
  lemma {:induction false} MomentsFormLifetimes(accounts: set<Account>, ops: seq<Op>, id: BlockerId)
    requires Execute(accounts, ops).Done?
    ensures MomentInvariant(Execute(accounts, ops).state, id, MomentsOf(Execute(accounts, ops).launched, id))
  {
    if ops != [] {
      var earlier := ops[..|ops| - 1];
      MomentsFormLifetimes(accounts, earlier, id);
      var s, log := Execute(accounts, earlier).state, Execute(accounts, earlier).launched;
      StepKeepsMoments(s, ops[|ops| - 1], id, MomentsOf(log, id));
      MomentsConcat(log, Step(s, ops[|ops| - 1]).launched, id);
    }
  }

  // ---- unblocking only on request ----

  /** Unblocking begins when it was requested, or when a queued request is handled, and not otherwise. */
  lemma BeginsIff(p: Progress, kind: EventType)
    requires p.status.WaitBlockedMove? || p.status.ProgressBlocked?
    ensures var m := MoveNext(p, kind);
            && m.progress.Some?
            && (m.progress.value.status.AfterProgressBlocked() <==>
                  || (p.status.WaitBlockedMove? && kind.MoveToBlocked? && p.isUnblockRequested)
                  || (p.status.ProgressBlocked? && kind.UnblockRequested?))
            && (m.progress.value.status.AfterProgressBlocked() <==> m.next.Some?)
  {
  }

  /** Nobody asked to unblock: the blocker waits for its first move, or is blocked with nothing queued. */
  ghost predicate Quiet(p: Option<Progress>, pending: seq<EventType>, moments: seq<Moment>) {
    if p.None? then moments == [] && pending == []
    else
      && !p.value.isUnblockRequested && !p.value.isUnblockInQueue
      && (|| (p.value.status.WaitBlockedMove? && pending == [MoveToBlocked] && moments == [])
          || (p.value.status.ProgressBlocked? && pending == [] && moments == [Blocked]))
  }

  function ProgressOf(s: State, id: BlockerId): Option<Progress> {
    if id in s.blockers then Some(s.blockers[id].progress) else None
  }

  ghost predicate Undisturbed(s: State, id: BlockerId, moments: seq<Moment>) {
    Quiet(ProgressOf(s, id), Pending(s.events, id), moments)
  }

  lemma MoveIsQuiet(p: Progress, pending: seq<EventType>, moments: seq<Moment>)
    requires Quiet(Some(p), pending, moments) && pending != []
    ensures var m := MoveNext(p, pending[0]);
            Quiet(m.progress, pending[1..] + (if m.next.None? then [] else [m.next.value]),
                  moments + (if m.launch.None? then [] else [m.launch.value]))
  {
  }

  lemma SameIsUndisturbed(s: State, s': State, id: BlockerId, moments: seq<Moment>)
    requires Undisturbed(s, id, moments) && ProgressOf(s', id) == ProgressOf(s, id)
    requires Pending(s'.events, id) == Pending(s.events, id)
    ensures Undisturbed(s', id, moments)
  {
  }

  lemma BlockUndisturbed(s: State, id: BlockerId, blockType: BlockType, moments: seq<Moment>)
    requires Undisturbed(s, id, moments) && BlockStep(s, id, blockType).Done?
    ensures Undisturbed(BlockStep(s, id, blockType).state, id, moments)
  {
    if id in s.blockers {
      BlockAgain(s, id, blockType);
    } else {
      BlockFirst(s, id, blockType);
      PendingPush(s.events, Event(id, MoveToBlocked), id);
    }
  }

  /** Calls for another id touch neither its progress nor its events. */
  lemma OtherCall(s: State, op: Op, id: BlockerId)
    requires (op.Block? || op.Unblock?) && op.id != id && Step(s, op).Done?
    ensures ProgressOf(Step(s, op).state, id) == ProgressOf(s, id)
    ensures Pending(Step(s, op).state.events, id) == Pending(s.events, id)
  {
    PendingPush(s.events, Event(op.id, if op.Block? then MoveToBlocked else UnblockRequested), id);
  }

  lemma CallUndisturbed(s: State, op: Op, id: BlockerId, moments: seq<Moment>)
    requires Undisturbed(s, id, moments) && op != Unblock(id) && !op.HandleNext? && Step(s, op).Done?
    ensures Undisturbed(Step(s, op).state, id, moments)
  {
    if (op.Block? || op.Unblock?) && op.id != id {
      OtherCall(s, op, id);
      SameIsUndisturbed(s, Step(s, op).state, id, moments);
    } else if op.Block? {
      BlockUndisturbed(s, id, op.blockType, moments);
    } else {
      assert ProgressOf(Step(s, op).state, id) == ProgressOf(s, id);
      SameIsUndisturbed(s, Step(s, op).state, id, moments);
    }
  }

  lemma MomentsLaunched(s: State, id: BlockerId)
    requires s.received && s.events != [] && HandleStep(s).Done?
    ensures var e := s.events[0];
            && e.id in s.blockers
            && MomentsOf(HandleStep(s).launched, id) ==
               var m := MoveNext(s.blockers[e.id].progress, e.kind);
               if id == e.id && m.launch.Some? then [m.launch.value] else []
  {
    HandleEffect(s);
    var e, launched := s.events[0], HandleStep(s).launched;
    var m := MoveNext(s.blockers[e.id].progress, e.kind);
    assert launched == if m.launch.Some? then [Launch(e.id, m.launch.value)] else [];
  }

  lemma HandleMovesProgress(s: State, id: BlockerId)
    requires s.received && s.events != [] && HandleStep(s).Done?
    ensures var e := s.events[0];
            && e.id in s.blockers
            && ProgressOf(HandleStep(s).state, id) ==
               if id == e.id then MoveNext(s.blockers[e.id].progress, e.kind).progress else ProgressOf(s, id)
  {
    var s', e := HandleStep(s).state, s.events[0];
    HandleEffect(s);
    if id != e.id {
      assert id in s'.blockers <==> id in s'.blockers - {e.id};
      assert id in s.blockers <==> id in s.blockers - {e.id};
      assert id in s.blockers ==> s'.blockers[id] == (s'.blockers - {e.id})[id] == s.blockers[id];
    }
  }

  lemma HandleUndisturbed(s: State, id: BlockerId, moments: seq<Moment>)
    requires Undisturbed(s, id, moments) && s.received && s.events != [] && HandleStep(s).Done?
    ensures Undisturbed(HandleStep(s).state, id, moments + MomentsOf(HandleStep(s).launched, id))
  {
    MomentsLaunched(s, id);
    HandleMovesProgress(s, id);
    PendingAfterHandle(s, id);
    QuietAfter(s.events[0], id, ProgressOf(s, id), Pending(s.events, id), moments, HandleStep(s).state,
        MomentsOf(HandleStep(s).launched, id));
  }

  lemma QuietAfter(e: Event, id: BlockerId, p: Option<Progress>, pending: seq<EventType>, moments: seq<Moment>,
                   s': State, launched: seq<Moment>)
    requires Quiet(p, pending, moments)
    requires id == e.id ==>
               && p.Some? && pending != [] && pending[0] == e.kind
               && (var m := MoveNext(p.value, e.kind);
                   && ProgressOf(s', id) == m.progress
                   && Pending(s'.events, id) == pending[1..] + (if m.next.Some? then [m.next.value] else [])
                   && launched == if m.launch.Some? then [m.launch.value] else [])
    requires id != e.id ==> ProgressOf(s', id) == p && Pending(s'.events, id) == pending && launched == []
    ensures Undisturbed(s', id, moments + launched)
  {
    if id == e.id {
      MoveIsQuiet(p.value, pending, moments);
    } else {
      assert moments + launched == moments;
    }
  }

  lemma StepUndisturbed(s: State, op: Op, id: BlockerId, moments: seq<Moment>)
    requires Undisturbed(s, id, moments) && op != Unblock(id) && Step(s, op).Done?
    ensures Undisturbed(Step(s, op).state, id, moments + MomentsOf(Step(s, op).launched, id))
  {
    if op.HandleNext? && s.received && s.events != [] {
      HandleUndisturbed(s, id, moments);
    } else {
      assert Step(s, op).launched == [];
      assert moments + [] == moments;
      if !op.HandleNext? {
        CallUndisturbed(s, op, id, moments);
      }
    }
  }

  /** As long as nobody asks to unblock an id, only the Blocked handlers are launched for it, and only once. */
  lemma {:induction false} OnlyBlockedWithoutRequest(accounts: set<Account>, ops: seq<Op>, id: BlockerId)
    requires Execute(accounts, ops).Done? && Unblock(id) !in ops
    ensures Undisturbed(Execute(accounts, ops).state, id, MomentsOf(Execute(accounts, ops).launched, id))
    decreases |ops|
  {
    if ops != [] {
      var earlier, op := ops[..|ops| - 1], ops[|ops| - 1];
      assert ops == earlier + [op];
      OnlyBlockedWithoutRequest(accounts, earlier, id);
      var s, log := Execute(accounts, earlier).state, Execute(accounts, earlier).launched;
      MomentsConcat(log, Step(s, op).launched, id);
      StepUndisturbed(s, op, id, MomentsOf(log, id));
    }
  }

  function CountOf(moments: seq<Moment>, m: Moment): nat {
    if moments == [] then 0
    else CountOf(moments[..|moments| - 1], m) + (if moments[|moments| - 1] == m then 1 else 0)
  }

  /** Exactly one Blocked is launched per completed lifetime. */
  lemma {:induction false} OneBlockedPerLifetime(moments: seq<Moment>)
    requires Lifetimes(moments)
    ensures CountOf(moments, Blocked) == CountOf(moments, Unblocked) + (if BetweenLifetimes(moments) then 0 else 1)
  {
    if moments != [] {
      OneBlockedPerLifetime(moments[..|moments| - 1]);
    }
  }
}
