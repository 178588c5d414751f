/** How long blocks run: what each step does to the end time of a timed block, and what runs do. */
module BlockerTimes {
  import opened Domain
  import opened BlockerProtocol
  import opened BlockerSafety

  /** Until when a timed block of `id` runs, if one does. */
  function EndOf(s: State, id: BlockerId): Option<int> {
    if id in s.blockers && s.blockers[id].timeout.InProgress? then Some(s.blockers[id].timeout.endTime) else None
  }

  function Later(end: Option<int>, other: int): int {
    if end.Some? && end.value > other then end.value else other
  }

  lemma HandleKeepsTimes(s: State, id: BlockerId)
    requires HandleStep(s).Done?
    ensures var s' := HandleStep(s).state; id in s'.blockers ==> id in s.blockers && EndOf(s', id) == EndOf(s, id)
  {
    if s.received && s.events != [] {
      var e := s.events[0];
      HandleEffect(s);
      var s' := HandleStep(s).state;
      if id in s'.blockers && id != e.id {
        assert id in s'.blockers - {e.id} && (s'.blockers - {e.id})[id] == s'.blockers[id];
        assert (s.blockers - {e.id})[id] == s.blockers[id];
      }
    }
  }

  /** Only three things change when a block ends: a timed `block` of it, which lets it run to the later of the
      two times, a tick of its timer and its removal. */
  lemma StepTimes(s: State, op: Op, id: BlockerId)
    requires Step(s, op).Done?
    ensures EndOf(Step(s, op).state, id) ==
            match op
            case Block(i, Timed(end)) => if i == id then Some(Later(EndOf(s, id), end)) else EndOf(s, id)
            case TimerReady(i) => if i == id then None else EndOf(s, id)
            case HandleNext => if id in Step(s, op).state.blockers then EndOf(s, id) else None
            case _ => EndOf(s, id)
  {
    if op.HandleNext? {
      HandleKeepsTimes(s, id);
    }
  }

  /** At every point of every run a block runs until the time its calls say. */
  lemma {:induction false} RunsAsCalled(accounts: set<Account>, ops: seq<Op>, id: BlockerId)
    requires Execute(accounts, ops).Done?
    ensures RunningUntil(accounts, ops, id) == EndOf(Execute(accounts, ops).state, id)
    decreases |ops|
  {
    if ops != [] {
      var earlier := ops[..|ops| - 1];
      RunsAsCalled(accounts, earlier, id);
      StepTimes(Execute(accounts, earlier).state, ops[|ops| - 1], id);
    }
  }

  // ---- one call of block on a live blocker ----

  /** A `block` of a live blocker counts unless a timed block runs longer. If it counts, it withdraws the unblock
      request and goes back to the blocked status; otherwise nothing changes at all. */
  lemma BlockAgain(s: State, id: BlockerId, blockType: BlockType)
    requires id in s.blockers && id.account in s.accounts
    ensures BlockStep(s, id, blockType).Done?
    ensures var s', p := BlockStep(s, id, blockType).state, s.blockers[id].progress;
            if Counts(EndOf(s, id), blockType) then
              && id in s'.blockers && s' == s.(blockers := s.blockers[id := s'.blockers[id]])
              && s'.blockers[id].progress ==
                 Progress(false, p.isUnblockInQueue, if p.status.WaitBlockedMove? then p.status else ProgressBlocked)
              && EndOf(s', id) == if blockType.Timed? then Some(blockType.endTime) else None
            else s' == s && EndOf(s, id).Some?
  {
    assert s.blockers == s.blockers[id := s.blockers[id]];
  }

  /** The first `block` of an id makes a blocker that waits for its first move and queues that move. */
  lemma BlockFirst(s: State, id: BlockerId, blockType: BlockType)
    requires id !in s.blockers && id.account in s.accounts
    ensures BlockStep(s, id, blockType).Done? <==> InChannel(s) < CHANNEL_CAPACITY
    ensures BlockStep(s, id, blockType).Done? ==>
              var s' := BlockStep(s, id, blockType).state;
              && id in s'.blockers && s'.blockers == s.blockers[id := s'.blockers[id]]
              && s'.blockers[id].progress == Progress(false, false, WaitBlockedMove)
              && EndOf(s', id) == (if blockType.Timed? then Some(blockType.endTime) else None)
              && s'.events == s.events + [Event(id, MoveToBlocked)] && s'.received == s.received
  {
  }

  // ---- unblock, and calls that panic ----

  /** An `unblock` of a live blocker notes the request, and queues it unless one is queued or the unblocking has
      begun; a second request changes nothing. */
  lemma UnblockAsks(s: State, id: BlockerId)
    requires id in s.blockers && UnblockStep(s, id).Done?
    ensures var s', p := UnblockStep(s, id).state, s.blockers[id].progress;
            if p.isUnblockRequested then s' == s
            else
              var queues := !p.isUnblockInQueue && (p.status.WaitBlockedMove? || p.status.ProgressBlocked?);
              && id in s'.blockers && s'.blockers == s.blockers[id := s'.blockers[id]]
              && s'.blockers[id].timeout == s.blockers[id].timeout
              && s'.blockers[id].progress == Progress(true, p.isUnblockInQueue || queues, p.status)
              && s'.events == s.events + (if queues then [Event(id, UnblockRequested)] else [])
              && s'.received == s.received
  {
  }

  /** Whether a call needs a place in the channel. */
  predicate NeedsPlace(s: State, op: Op) {
    match op
    case Block(id, _) => id !in s.blockers
    case Unblock(id) =>
      id in s.blockers &&
      var p := s.blockers[id].progress;
      !p.isUnblockRequested && !p.isUnblockInQueue && (p.status.WaitBlockedMove? || p.status.ProgressBlocked?)
    case _ => false
  }

  /** A call panics exactly for an unknown account or when it needs a place in a full channel. */
  lemma CallPanicsIff(s: State, op: Op)
    requires op.Block? || op.TimerReady? || op.Unblock?
    ensures Step(s, op).Panic? <==>
            op.id.account !in s.accounts || (NeedsPlace(s, op) && InChannel(s) >= CHANNEL_CAPACITY)
  {
  }

  /** Calls for an id without a blocker leave everything as it is, `block` excepted. */
  lemma AbsentIsIgnored(s: State, op: Op)
    requires (op.TimerReady? || op.Unblock?) && op.id !in s.blockers && op.id.account in s.accounts
    ensures Step(s, op) == Done(s, [])
  {
  }

  // ---- a re-block never shortens ----

  /** The latest of the end times asked for in these calls and the one given. */
  function LatestEnd(ops: seq<Op>, id: BlockerId, end: int): int {
    if ops == [] then end
    else
      var before := LatestEnd(ops[..|ops| - 1], id, end);
      match ops[|ops| - 1]
      case Block(i, Timed(other)) => if i == id && other > before then other else before
      case _ => before
  }

  lemma {:induction false} LatestIsNotBefore(ops: seq<Op>, id: BlockerId, end: int)
    ensures LatestEnd(ops, id, end) >= end
    ensures forall other :: Block(id, Timed(other)) in ops ==> LatestEnd(ops, id, end) >= other
    decreases |ops|
  {
    if ops != [] {
      assert ops == ops[..|ops| - 1] + [ops[|ops| - 1]];
      LatestIsNotBefore(ops[..|ops| - 1], id, end);
    }
  }

  /** The blocker lives through all of these calls. */
  ghost predicate LivesThrough(accounts: set<Account>, ops: seq<Op>, more: seq<Op>, id: BlockerId) {
    more == [] ||
    (LivesThrough(accounts, ops, more[..|more| - 1], id) &&
     Execute(accounts, ops + more).Done? && id in Execute(accounts, ops + more).state.blockers)
  }

  /** Between two ticks of its timer a block runs until the latest time anyone asked for, so that no re-block
      shortens it. */
  lemma {:induction false} NeverShortened(accounts: set<Account>, ops: seq<Op>, more: seq<Op>, id: BlockerId, end: int)
    requires Execute(accounts, ops + more).Done? && LivesThrough(accounts, ops, more, id)
    requires Execute(accounts, ops).Done? && EndOf(Execute(accounts, ops).state, id) == Some(end)
    requires TimerReady(id) !in more
    ensures EndOf(Execute(accounts, ops + more).state, id) == Some(LatestEnd(more, id, end))
    decreases |more|
  {
    if more == [] {
      assert ops + more == ops;
    } else {
      var earlier, op := more[..|more| - 1], more[|more| - 1];
      assert (ops + more)[..|ops + more| - 1] == ops + earlier;
      NeverShortened(accounts, ops, earlier, id, end);
      StepTimes(Execute(accounts, ops + earlier).state, op, id);
    }
  }
}
