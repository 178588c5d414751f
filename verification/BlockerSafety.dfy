/** What every interleaving of the blocker protocol keeps, and what follows from it. */
module BlockerSafety {
  import opened BlockerProtocol

  // ---- one blocker's view of the shared channel ----

  /** The events queued for `id`, oldest first. */
  function Pending(events: seq<Event>, id: BlockerId): seq<EventType> {
    if events == [] then []
    else
      var last := events[|events| - 1];
      Pending(events[..|events| - 1], id) + (if last.id == id then [last.kind] else [])
  }

  lemma PendingPush(events: seq<Event>, e: Event, id: BlockerId)
    ensures Pending(events + [e], id) == Pending(events, id) + (if e.id == id then [e.kind] else [])
  {
    assert (events + [e])[..|events|] == events;
  }

  lemma {:induction false} PendingPop(events: seq<Event>, id: BlockerId)
    requires events != []
    ensures Pending(events, id) == (if events[0].id == id then [events[0].kind] else []) + Pending(events[1..], id)
  {
    if |events| > 1 {
      PendingPop(events[..|events| - 1], id);
      assert events[..|events| - 1][1..] == events[1..][..|events| - 2];
    }
  }

  /** The queue shapes one blocker can have. The prefix of events left over from cancelled unblocks is
      what makes them non-obvious. */
  ghost predicate LocalInvariant(p: Progress, pending: seq<EventType>) {
    var unblock := if p.isUnblockInQueue then [UnblockRequested] else [];
    var toBefore, toUnblocked := MoveBlockedToBeforeUnblocked, MoveBeforeUnblockedToUnblocked;
    match p.status
    case WaitBlockedMove =>
      && pending == [MoveToBlocked] + unblock
      && (p.isUnblockRequested ==> p.isUnblockInQueue)
    case ProgressBlocked =>
      && (p.isUnblockRequested ==> p.isUnblockInQueue)
      && (|| pending == unblock
          || pending == [toBefore] + unblock
          || pending == [toUnblocked] + unblock
          || pending == [toBefore, toBefore] + unblock
          || pending == [toBefore, toUnblocked] + unblock
          || pending == unblock + [toBefore])
    case WaitBeforeUnblockedMove =>
      || pending == unblock + [toBefore]
      || (!p.isUnblockInQueue && pending == [toBefore, toBefore])
    case WaitUnblockedMove =>
      !p.isUnblockInQueue && (pending == [toUnblocked] || pending == [toBefore, toUnblocked])
  }

  ghost predicate IdInvariant(s: State, id: BlockerId) {
    if id in s.blockers then
      id.account in s.accounts && LocalInvariant(s.blockers[id].progress, Pending(s.events, id))
    else
      Pending(s.events, id) == []
  }

  ghost predicate Invariant(s: State) {
    && (forall id :: IdInvariant(s, id))
    && (s.received ==> s.events != [])
  }

  // ---- each step keeps the invariant ----

  lemma PushKeepsOthers(s: State, s': State, e: Event)
    requires Invariant(s) && s'.accounts == s.accounts && s'.events == s.events + [e] && s'.received == s.received
    requires forall id :: id != e.id ==> (id in s'.blockers <==> id in s.blockers)
    requires forall id :: id != e.id && id in s.blockers ==> s'.blockers[id] == s.blockers[id]
    requires IdInvariant(s', e.id)
    ensures Invariant(s')
  {
    forall id ensures IdInvariant(s', id) {
      assert IdInvariant(s, id);
      PendingPush(s.events, e, id);
    }
  }

  lemma RollbackKeepsShape(p: Progress, pending: seq<EventType>)
    requires LocalInvariant(p, pending)
    ensures LocalInvariant(RollbackToBlockedProgress(p), pending)
  {
  }

  /** A step that queues nothing and changes one blocker. */
  lemma UpdateKeepsOthers(s: State, id: BlockerId, b: Blocker)
    requires Invariant(s) && id in s.blockers && IdInvariant(s.(blockers := s.blockers[id := b]), id)
    ensures Invariant(s.(blockers := s.blockers[id := b]))
  {
    var s' := s.(blockers := s.blockers[id := b]);
    forall i ensures IdInvariant(s', i) {
      assert IdInvariant(s, i);
    }
  }

  lemma NewBlockKeepsInvariant(s: State, id: BlockerId, blockType: BlockType)
    requires Invariant(s) && id !in s.blockers && BlockStep(s, id, blockType).Done?
    ensures Invariant(BlockStep(s, id, blockType).state)
  {
    assert IdInvariant(s, id);
    PendingPush(s.events, Event(id, MoveToBlocked), id);
    PushKeepsOthers(s, BlockStep(s, id, blockType).state, Event(id, MoveToBlocked));
  }

  lemma BlockKeepsInvariant(s: State, id: BlockerId, blockType: BlockType)
    requires Invariant(s) && BlockStep(s, id, blockType).Done?
    ensures Invariant(BlockStep(s, id, blockType).state)
  {
    if id in s.blockers {
      assert IdInvariant(s, id);
      RollbackKeepsShape(s.blockers[id].progress, Pending(s.events, id));
      UpdateKeepsOthers(s, id, TimeoutResetIfExists(s.blockers[id], blockType));
    } else {
      NewBlockKeepsInvariant(s, id, blockType);
    }
  }

  lemma UnblockKeepsInvariant(s: State, id: BlockerId)
    requires Invariant(s) && UnblockStep(s, id).Done?
    ensures Invariant(UnblockStep(s, id).state)
  {
    var s' := UnblockStep(s, id).state;
    assert IdInvariant(s, id);
    if s'.events != s.events {
      PendingPush(s.events, Event(id, UnblockRequested), id);
      PushKeepsOthers(s, s', Event(id, UnblockRequested));
    } else if s' != s {
      UpdateKeepsOthers(s, id, s'.blockers[id]);
    }
  }

  lemma TimerReadyKeepsInvariant(s: State, id: BlockerId)
    requires Invariant(s) && TimerReadyStep(s, id).Done?
    ensures Invariant(TimerReadyStep(s, id).state)
  {
    forall i ensures IdInvariant(TimerReadyStep(s, id).state, i) {
      assert IdInvariant(s, i);
    }
  }

  /** The per-blocker heart of the protocol: from an allowed shape, handling the oldest event leads to
      an allowed shape, and to no shape at all only when nothing else is queued. */
  lemma MoveKeepsShape(p: Progress, pending: seq<EventType>)
    requires pending != [] && LocalInvariant(p, pending)
    ensures var m := MoveNext(p, pending[0]);
            var rest := pending[1..] + (if m.next.None? then [] else [m.next.value]);
            if m.progress.None? then rest == [] else LocalInvariant(m.progress.value, rest)
  {
  }

  lemma HandleEffect(s: State)
    requires s.received && s.events != [] && HandleStep(s).Done?
    ensures var e, s' := s.events[0], HandleStep(s).state;
            var m := MoveNext(s.blockers[e.id].progress, e.kind);
            && e.id in s.blockers && s'.accounts == s.accounts && !s'.received
            && s'.events == s.events[1..] + (if m.next.None? then [] else [Event(e.id, m.next.value)])
            && (e.id in s'.blockers <==> m.progress.Some?)
            && (m.progress.Some? ==> s'.blockers[e.id].progress == m.progress.value)
            && s'.blockers - {e.id} == s.blockers - {e.id}
  {
  }

  lemma PendingAfterHandle(s: State, id: BlockerId)
    requires s.received && s.events != [] && HandleStep(s).Done?
    ensures id == s.events[0].id ==> Pending(s.events, id) != [] && Pending(s.events, id)[0] == s.events[0].kind
    ensures var e := s.events[0];
            var m := MoveNext(s.blockers[e.id].progress, e.kind);
            var queued := if m.next.Some? then [m.next.value] else [];
            Pending(HandleStep(s).state.events, id) ==
            if id == e.id then Pending(s.events, id)[1..] + queued else Pending(s.events, id)
  {
    HandleEffect(s);
    var e := s.events[0];
    var m := MoveNext(s.blockers[e.id].progress, e.kind);
    PendingPop(s.events, id);
    if m.next.Some? {
      PendingPush(s.events[1..], Event(e.id, m.next.value), id);
    } else {
      assert s.events[1..] + [] == s.events[1..];
    }
  }

  lemma HandleKeepsInvariant(s: State)
    requires Invariant(s) && HandleStep(s).Done?
    ensures Invariant(HandleStep(s).state)
  {
    if s.received {
      HandleEffect(s);
      forall id ensures IdInvariant(HandleStep(s).state, id) {
        HandleKeepsId(s, id);
      }
    }
  }

  lemma HandleKeepsId(s: State, id: BlockerId)
    requires IdInvariant(s, id) && s.received && s.events != [] && HandleStep(s).Done?
    ensures IdInvariant(HandleStep(s).state, id)
  {
    var s', e := HandleStep(s).state, s.events[0];
    HandleEffect(s);
    PendingAfterHandle(s, id);
    if id == e.id {
      MoveKeepsShape(s.blockers[id].progress, Pending(s.events, id));
    } else {
      assert id in s'.blockers <==> id in s'.blockers - {e.id};
      assert id in s.blockers <==> id in s.blockers - {e.id};
      assert id in s.blockers ==> s'.blockers[id] == (s'.blockers - {e.id})[id] == s.blockers[id];
    }
  }

  lemma ReceiveKeepsInvariant(s: State)
    requires Invariant(s)
    ensures Invariant(ReceiveStep(s).state)
  {
    forall id ensures IdInvariant(ReceiveStep(s).state, id) {
      assert IdInvariant(s, id);
    }
  }

  lemma StepKeepsInvariant(s: State, op: Op)
    requires Invariant(s) && Step(s, op).Done?
    ensures Invariant(Step(s, op).state) && Step(s, op).state.accounts == s.accounts
  {
    match op
    case Block(id, blockType) => BlockKeepsInvariant(s, id, blockType);
    case TimerReady(id) => TimerReadyKeepsInvariant(s, id);
    case Unblock(id) => UnblockKeepsInvariant(s, id);
    case Receive => ReceiveKeepsInvariant(s);
    case HandleNext => HandleKeepsInvariant(s);
  }

  /** In every reachable state each blocker has one of the listed queue shapes and an id without a
      blocker has no queued event. */
  lemma {:induction false} ReachableInvariant(accounts: set<Account>, ops: seq<Op>)
    requires Execute(accounts, ops).Done?
    ensures Invariant(Execute(accounts, ops).state) && Execute(accounts, ops).state.accounts == accounts
  {
    if ops != [] {
      ReachableInvariant(accounts, ops[..|ops| - 1]);
      StepKeepsInvariant(Execute(accounts, ops[..|ops| - 1]).state, ops[|ops| - 1]);
    }
  }

  // ---- consequences: bounded queue, no dangling event ----

  function Count(kinds: seq<EventType>, kind: EventType): nat {
    if kinds == [] then 0 else (if kinds[0] == kind then 1 else 0) + Count(kinds[1..], kind)
  }

  /** At most three events per blocker, and an unblock request is queued exactly when the flag says so. */
  lemma PendingBounded(s: State, id: BlockerId)
    requires Invariant(s) && id in s.blockers
    ensures |Pending(s.events, id)| <= 3
    ensures Count(Pending(s.events, id), UnblockRequested) == if s.blockers[id].progress.isUnblockInQueue then 1 else 0
  {
    assert IdInvariant(s, id);
    var pending := Pending(s.events, id);
    var n := |pending|;
    assert n <= 3;
    if n >= 1 { assert Count(pending, UnblockRequested) == (if pending[0].UnblockRequested? then 1 else 0)
        + Count(pending[1..], UnblockRequested); }
    if n >= 2 { assert pending[1..][1..] == pending[2..]; assert Count(pending[1..], UnblockRequested) ==
        (if pending[1].UnblockRequested? then 1 else 0) + Count(pending[2..], UnblockRequested); }
    if n >= 3 { assert pending[2..][1..] == []; assert Count(pending[2..], UnblockRequested) ==
        (if pending[2].UnblockRequested? then 1 else 0); }
  }

  function Others(events: seq<Event>, id: BlockerId): seq<Event> {
    if events == [] then []
    else
      var last := events[|events| - 1];
      Others(events[..|events| - 1], id) + (if last.id == id then [] else [last])
  }

  lemma {:induction false} SplitById(events: seq<Event>, id: BlockerId, other: BlockerId)
    ensures |events| == |Pending(events, id)| + |Others(events, id)|
    ensures Pending(Others(events, id), other) == if other == id then [] else Pending(events, other)
  {
    if events != [] {
      var init, last := events[..|events| - 1], events[|events| - 1];
      SplitById(init, id, other);
      if last.id == id {
        assert Others(events, id) == Others(init, id);
      } else {
        PendingPush(Others(init, id), last, other);
      }
    }
  }

  lemma LastIsPending(events: seq<Event>)
    requires events != []
    ensures Pending(events, events[|events| - 1].id) != []
  {
  }

  /** A channel in which only `ids` occur, each at most three times, holds at most 3|ids| events. */
  lemma {:induction false} ChannelBound(events: seq<Event>, ids: set<BlockerId>)
    requires forall id :: |Pending(events, id)| <= if id in ids then 3 else 0
    ensures |events| <= 3 * |ids|
    decreases |ids|
  {
    if ids == {} {
      if events != [] {
        LastIsPending(events);
      }
    } else {
      var id :| id in ids;
      forall other ensures |Pending(Others(events, id), other)| <= if other in ids - {id} then 3 else 0 {
        SplitById(events, id, other);
      }
      SplitById(events, id, id);
      ChannelBound(Others(events, id), ids - {id});
    }
  }

  lemma QueueWithinThreePerBlocker(s: State)
    requires Invariant(s)
    ensures |s.events| <= 3 * |s.blockers|
  {
    forall id ensures |Pending(s.events, id)| <= if id in s.blockers.Keys then 3 else 0 {
      assert IdInvariant(s, id);
      if id in s.blockers {
        PendingBounded(s, id);
      }
    }
    ChannelBound(s.events, s.blockers.Keys);
  }

  /** The blocker count up to which the channel cannot overflow. */
  const MAX_LIVE_BLOCKERS: nat := 6_666

  ghost predicate KnownAccount(accounts: set<Account>, op: Op) {
    op.Receive? || op.HandleNext? || op.id.account in accounts
  }

  /** While the processor held an event its place in the full channel was taken, and it has a next event to
      queue. */
  ghost predicate Jammed(s: State) {
    && s.received && s.events != [] && InChannel(s) >= CHANNEL_CAPACITY
    && s.events[0].id in s.blockers
    && MoveNext(s.blockers[s.events[0].id].progress, s.events[0].kind).next.Some?
  }

  /** The processor always finds the blocker of the event it took, so it panics exactly when jammed; and that
      takes more than 6666 blockers. */
  lemma HandlerPanicsIffJammed(s: State)
    requires Invariant(s)
    ensures HandleStep(s).Panic? <==> Jammed(s)
    ensures Jammed(s) ==> |s.blockers| > MAX_LIVE_BLOCKERS
  {
    QueueWithinThreePerBlocker(s);
    if s.received {
      var e := s.events[0];
      assert IdInvariant(s, e.id);
      PendingPop(s.events, e.id);
    }
  }

  lemma {:induction false} ChannelWithinCapacity(accounts: set<Account>, ops: seq<Op>)
    requires Execute(accounts, ops).Done?
    ensures InChannel(Execute(accounts, ops).state) <= CHANNEL_CAPACITY
  {
    if ops != [] {
      ChannelWithinCapacity(accounts, ops[..|ops| - 1]);
      ReachableInvariant(accounts, ops[..|ops| - 1]);
      StepWithinCapacity(Execute(accounts, ops[..|ops| - 1]).state, ops[|ops| - 1]);
    }
  }

  lemma StepWithinCapacity(s: State, op: Op)
    requires Invariant(s) && InChannel(s) <= CHANNEL_CAPACITY && Step(s, op).Done?
    ensures InChannel(Step(s, op).state) <= CHANNEL_CAPACITY
  {
  }

  /** No step panics: the processor finds the blocker of every event it takes, and the channel has room. */
  lemma StepDoesNotPanic(s: State, op: Op)
    requires Invariant(s) && KnownAccount(s.accounts, op) && |s.blockers| <= MAX_LIVE_BLOCKERS
    ensures Step(s, op).Done?
  {
    QueueWithinThreePerBlocker(s);
    HandlerPanicsIffJammed(s);
  }

  /** For every interleaving over known accounts in which at most 6666 blockers are ever live, nothing
      panics. */
  lemma {:induction false} NoRunPanics(accounts: set<Account>, ops: seq<Op>)
    requires forall k :: 0 <= k < |ops| ==> KnownAccount(accounts, ops[k])
    requires forall k {:trigger ops[..k]} :: 0 <= k < |ops| && Execute(accounts, ops[..k]).Done? ==>
               |Execute(accounts, ops[..k]).state.blockers| <= MAX_LIVE_BLOCKERS
    ensures Execute(accounts, ops).Done?
  {
    if ops != [] {
      var earlier := ops[..|ops| - 1];
      forall k {:trigger earlier[..k]} | 0 <= k < |earlier| && Execute(accounts, earlier[..k]).Done?
        ensures |Execute(accounts, earlier[..k]).state.blockers| <= MAX_LIVE_BLOCKERS
      {
        assert earlier[..k] == ops[..k];
      }
      NoRunPanics(accounts, earlier);
      ReachableInvariant(accounts, earlier);
      StepDoesNotPanic(Execute(accounts, earlier).state, ops[|ops| - 1]);
    }
  }

  // ---- the bound of three is attained ----

  function One(id: BlockerId, p: Progress, events: seq<Event>): State {
    State({id.account}, map[id := Blocker(ReadyUnblock, p)], events, false)
  }

  ghost predicate Reachable(s: State) {
    exists ops :: Execute(s.accounts, ops).Done? && Execute(s.accounts, ops).state == s
  }

  lemma ReachableStep(s: State, op: Op)
    requires Reachable(s) && Step(s, op).Done? && Step(s, op).state.accounts == s.accounts
    ensures Reachable(Step(s, op).state)
  {
    var ops :| Execute(s.accounts, ops).Done? && Execute(s.accounts, ops).state == s;
    assert (ops + [op])[..|ops|] == ops;
    assert Execute(s.accounts, ops + [op]).Done?;
  }

  lemma OneBlock(id: BlockerId, p: Progress, events: seq<Event>)
    requires Reachable(One(id, p, events))
    ensures Reachable(One(id, RollbackToBlockedProgress(p), events))
  {
    var s := One(id, p, events);
    ReachableStep(s, Block(id, Manual));
    assert Step(s, Block(id, Manual)).state == One(id, RollbackToBlockedProgress(p), events);
  }

  lemma OneUnblock(id: BlockerId, p: Progress, events: seq<Event>)
    requires Reachable(One(id, p, events)) && |events| < 10
    requires !p.isUnblockRequested && !p.isUnblockInQueue && !p.status.AfterProgressBlocked()
    ensures Reachable(One(id, Progress(true, true, p.status), events + [Event(id, UnblockRequested)]))
  {
    var s := One(id, p, events);
    ReachableStep(s, Unblock(id));
    assert Step(s, Unblock(id)).state == One(id, Progress(true, true, p.status), events
        + [Event(id, UnblockRequested)]);
  }

  lemma OneHandle(id: BlockerId, p: Progress, kind: EventType, rest: seq<Event>)
    requires Reachable(One(id, p, [Event(id, kind)] + rest)) && |rest| < 10
    requires MoveNext(p, kind).progress.Some? && MoveNext(p, kind).next.Some?
    ensures Reachable(One(id, MoveNext(p, kind).progress.value, rest + [Event(id, MoveNext(p, kind).next.value)]))
  {
    var s, m := One(id, p, [Event(id, kind)] + rest), MoveNext(p, kind);
    ReachableStep(s, Receive);
    var taken := s.(received := true);
    ReachableStep(taken, HandleNext);
    assert taken.events[1..] == rest;
    assert Step(taken, HandleNext).state == One(id, m.progress.value, rest + [Event(id, m.next.value)]);
  }

  lemma CancelledUnblockReachable(id: BlockerId)
    ensures var before, request := Event(id, MoveBlockedToBeforeUnblocked), Event(id, UnblockRequested);
            Reachable(One(id, Progress(false, true, ProgressBlocked), [request] + [before]))
  {
    var before, request := Event(id, MoveBlockedToBeforeUnblocked), Event(id, UnblockRequested);
    var s0 := Init({id.account});
    assert Execute(s0.accounts, []).state == s0;
    ReachableStep(s0, Block(id, Manual));
    assert Step(s0, Block(id, Manual)).state == One(id, Progress(false, false, WaitBlockedMove),
        [Event(id, MoveToBlocked)]);
    OneUnblock(id, Progress(false, false, WaitBlockedMove), [Event(id, MoveToBlocked)]);
    OneHandle(id, Progress(true, true, WaitBlockedMove), MoveToBlocked, [request]);
    OneBlock(id, Progress(true, true, WaitBeforeUnblockedMove), [request] + [before]);
  }

  /** Re-blocking twice while an unblock is in flight leaves two stale events in front of the new
      request. */
  lemma ThreePendingReachable(id: BlockerId)
    ensures exists s :: Reachable(s) && |Pending(s.events, id)| == 3
  {
    var before, request := Event(id, MoveBlockedToBeforeUnblocked), Event(id, UnblockRequested);
    CancelledUnblockReachable(id);
    OneHandle(id, Progress(false, true, ProgressBlocked), UnblockRequested, [before]);
    OneBlock(id, Progress(false, false, WaitBeforeUnblockedMove), [before] + [before]);
    OneUnblock(id, Progress(false, false, ProgressBlocked), [before] + [before]);
    PendingPush([before] + [before], request, id);
    PendingPush([before], before, id);
    PendingPush([], before, id);
    assert [] + [before] == [before];
    assert |Pending([before] + [before] + [request], id)| == 3;
  }

  // ---- a jam needs more blockers than the bound, and then it can happen ----

  function Numbered(n: nat): BlockerId {
    BlockerId("a", seq(n, _ => 'x'))
  }

  function Blocks(n: nat): seq<Op> {
    if n == 0 then [] else Blocks(n - 1) + [Block(Numbered(n - 1), Manual)]
  }

  lemma NumberedDiffer(i: nat, j: nat)
    requires i != j
    ensures Numbered(i) != Numbered(j)
  {
    assert |Numbered(i).reason| == i && |Numbered(j).reason| == j;
  }

  /** `n` new blockers wait for their first move. */
  ghost predicate FilledWith(s: State, n: nat) {
    && s.accounts == {"a"} && |s.events| == n && !s.received
    && (forall k: nat :: Numbered(k) in s.blockers ==> k < n)
    && (n > 0 ==> s.events[0] == Event(Numbered(0), MoveToBlocked) && Numbered(0) in s.blockers
                  && s.blockers[Numbered(0)].progress == Progress(false, false, WaitBlockedMove))
  }

  lemma BlockFills(s: State, n: nat)
    requires FilledWith(s, n) && n < CHANNEL_CAPACITY
    ensures Step(s, Block(Numbered(n), Manual)).Done? && FilledWith(Step(s, Block(Numbered(n), Manual)).state, n + 1)
  {
    if n > 0 {
      NumberedDiffer(0, n);
    }
    var s' := Step(s, Block(Numbered(n), Manual)).state;
    forall k: nat | Numbered(k) in s'.blockers ensures k < n + 1 {
      if k != n {
        NumberedDiffer(k, n);
      }
    }
  }

  lemma {:induction false} BlocksFill(n: nat)
    requires n <= CHANNEL_CAPACITY
    ensures Execute({"a"}, Blocks(n)).Done? && FilledWith(Execute({"a"}, Blocks(n)).state, n)
  {
    if n > 0 {
      BlocksFill(n - 1);
      BlockFills(Execute({"a"}, Blocks(n - 1)).state, n - 1);
      assert Blocks(n)[..|Blocks(n)| - 1] == Blocks(n - 1);
    }
  }

  lemma UnblockJams(s: State)
    requires FilledWith(s, CHANNEL_CAPACITY)
    ensures var taken := Step(s, Receive).state;
            Step(taken, Unblock(Numbered(0))).Done? && Jammed(Step(taken, Unblock(Numbered(0))).state)
  {
    var taken := Step(s, Receive).state;
    var jammed := Step(taken, Unblock(Numbered(0))).state;
    assert jammed.events == s.events + [Event(Numbered(0), UnblockRequested)];
  }

  /** As many blocks as the channel has places, the first event taken, and an unblock of its blocker: the
      processor is jammed. */
  lemma JamReachable()
    ensures exists s :: Reachable(s) && Jammed(s)
  {
    BlocksFill(CHANNEL_CAPACITY);
    var s := Execute({"a"}, Blocks(CHANNEL_CAPACITY)).state;
    assert Reachable(s);
    UnblockJams(s);
    ReachableStep(s, Receive);
    var taken := Step(s, Receive).state;
    ReachableStep(taken, Unblock(Numbered(0)));
  }
}
