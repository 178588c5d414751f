/** The exchange blocker as a state machine over atomic steps.

    `block` and event handling run under the write lock of the blockers map; `unblock` runs under
    its read lock with the blocker's own progress mutex held until the event is queued. Each of them
    is therefore one step. The processor takes an event off the channel before it takes the write lock,
    which makes handling one event two steps. A timer tick is two steps as well: it first marks the
    timeout as ready and later calls `unblock`. */
module BlockerProtocol {
  import opened Domain

  type Account = string
  type Reason = string

  datatype BlockerId = BlockerId(account: Account, reason: Reason)

  // Declared in the order the code compares them: `status > ProgressBlocked` is AfterProgressBlocked.
  datatype Status = WaitBlockedMove | ProgressBlocked | WaitBeforeUnblockedMove | WaitUnblockedMove {
    predicate AfterProgressBlocked() {
      WaitBeforeUnblockedMove? || WaitUnblockedMove?
    }
  }

  datatype BlockType = Manual | Timed(endTime: int)

  datatype Timeout = ReadyUnblock | InProgress(endTime: int)

  datatype Progress = Progress(isUnblockRequested: bool, isUnblockInQueue: bool, status: Status)

  datatype Blocker = Blocker(timeout: Timeout, progress: Progress)

  datatype EventType =
    | MoveToBlocked
    | UnblockRequested
    | MoveBlockedToBeforeUnblocked
    | MoveBeforeUnblockedToUnblocked

  datatype Event = Event(id: BlockerId, kind: EventType)

  datatype Moment = Blocked | BeforeUnblocked | Unblocked

  /** A round of handlers started for one blocker. */
  datatype Launch = Launch(id: BlockerId, moment: Moment)

  /** `events` are the events not handled yet, oldest first. While `received` holds, the first of them is in
      the hands of the processor and the others are in the channel. */
  datatype State = State(accounts: set<Account>, blockers: map<BlockerId, Blocker>, events: seq<Event>,
                         received: bool)

  function InChannel(s: State): int {
    |s.events| - if s.received then 1 else 0
  }

  /** `Panic` stands for every failed expectation of the code: an unknown account, an event whose
      blocker is gone, a full channel. */
  datatype Outcome = Done(state: State, launched: seq<Launch>) | Panic

  datatype Op =
    | Block(id: BlockerId, blockType: BlockType)
    | TimerReady(id: BlockerId)
    | Unblock(id: BlockerId)
    | Receive
    | HandleNext

  const CHANNEL_CAPACITY: nat := 20_000

  function Init(accounts: set<Account>): State {
    State(accounts, map[], [], false)
  }

  // ---- block ----

  function NewBlocker(blockType: BlockType): Blocker {
    Blocker(
      if blockType.Manual? then ReadyUnblock else InProgress(blockType.endTime),
      Progress(false, false, WaitBlockedMove))
  }

  function RollbackToBlockedProgress(p: Progress): Progress {
    Progress(false, p.isUnblockInQueue,
             if p.status.WaitBlockedMove? then WaitBlockedMove else ProgressBlocked)
  }

  /** A timed block that ends earlier than the running one is ignored, and so is a manual block while
      a timed one is running. */
  predicate Refused(timeout: Timeout, blockType: BlockType) {
    timeout.InProgress? && (blockType.Manual? || blockType.endTime < timeout.endTime)
  }

  function TimeoutResetIfExists(b: Blocker, blockType: BlockType): Blocker {
    if Refused(b.timeout, blockType) then b
    else
      Blocker(
        if blockType.Manual? then b.timeout else InProgress(blockType.endTime),
        RollbackToBlockedProgress(b.progress))
  }

  function AddEvent(s: State, e: Event): Outcome {
    if InChannel(s) < CHANNEL_CAPACITY then Done(s.(events := s.events + [e]), []) else Panic
  }

  function BlockStep(s: State, id: BlockerId, blockType: BlockType): Outcome {
    if id.account !in s.accounts then Panic
    else if id in s.blockers then
      Done(s.(blockers := s.blockers[id := TimeoutResetIfExists(s.blockers[id], blockType)]), [])
    else
      match AddEvent(s, Event(id, MoveToBlocked))
      case Panic => Panic
      case Done(s', _) => Done(s'.(blockers := s'.blockers[id := NewBlocker(blockType)]), [])
  }

  // ---- timer tick, first half ----

  function TimerReadyStep(s: State, id: BlockerId): Outcome {
    if id.account !in s.accounts then Panic
    else if id !in s.blockers then Done(s, [])
    else Done(s.(blockers := s.blockers[id := s.blockers[id].(timeout := ReadyUnblock)]), [])
  }

  // ---- unblock ----

  function WithProgress(s: State, id: BlockerId, p: Progress): State
    requires id in s.blockers
  {
    s.(blockers := s.blockers[id := s.blockers[id].(progress := p)])
  }

  function UnblockStep(s: State, id: BlockerId): Outcome {
    if id.account !in s.accounts then Panic
    else if id !in s.blockers then Done(s, [])
    else
      var p := s.blockers[id].progress;
      if p.isUnblockRequested then Done(s, [])
      else if p.isUnblockInQueue || p.status.AfterProgressBlocked() then
        Done(WithProgress(s, id, p.(isUnblockRequested := true)), [])
      else
        AddEvent(WithProgress(s, id, Progress(true, true, p.status)), Event(id, UnblockRequested))
  }

  // ---- the queue processor ----

  /** What the processor does to one blocker: its new progress (`None` when it is removed), the event
      queued next and the handlers launched. */
  datatype Move = Move(progress: Option<Progress>, next: Option<EventType>, launch: Option<Moment>)

  function MoveNext(p0: Progress, kind: EventType): Move {
    var p := if kind.UnblockRequested? then p0.(isUnblockInQueue := false) else p0;
    match (p.status, kind)
    case (WaitBlockedMove, MoveToBlocked) =>
      if p.isUnblockRequested then
        Move(Some(p.(status := WaitBeforeUnblockedMove)), Some(MoveBlockedToBeforeUnblocked), Some(Blocked))
      else
        Move(Some(p.(status := ProgressBlocked)), None, Some(Blocked))
    case (ProgressBlocked, UnblockRequested) =>
      Move(Some(p.(status := WaitBeforeUnblockedMove)), Some(MoveBlockedToBeforeUnblocked), None)
    case (WaitBeforeUnblockedMove, MoveBlockedToBeforeUnblocked) =>
      Move(Some(p.(status := WaitUnblockedMove)), Some(MoveBeforeUnblockedToUnblocked), Some(BeforeUnblocked))
    case (WaitUnblockedMove, MoveBeforeUnblockedToUnblocked) =>
      if !p.isUnblockRequested then Move(Some(p.(status := ProgressBlocked)), None, None)
      else Move(None, None, Some(Unblocked))
    case _ => Move(Some(p), None, None)
  }

  function ApplyMove(s: State, id: BlockerId, m: Move): Outcome
    requires id in s.blockers
  {
    var s' :=
      if m.progress.None? then s.(blockers := s.blockers - {id}) else WithProgress(s, id, m.progress.value);
    var launched := if m.launch.None? then [] else [Launch(id, m.launch.value)];
    if m.next.None? then Done(s', launched)
    else
      match AddEvent(s', Event(id, m.next.value))
      case Panic => Panic
      case Done(s'', _) => Done(s'', launched)
  }

  /** With an empty channel the processor keeps waiting. The place of the event it takes is free at once. */
  function ReceiveStep(s: State): Outcome {
    Done(s.(received := s.events != []), [])
  }

  /** The processor has something to do once it has taken an event. */
  function HandleStep(s: State): Outcome {
    if !s.received || s.events == [] then Done(s, [])
    else
      var e := s.events[0];
      if e.id.account !in s.accounts || e.id !in s.blockers then Panic
      else ApplyMove(s.(events := s.events[1..], received := false), e.id, MoveNext(s.blockers[e.id].progress, e.kind))
  }

  function Step(s: State, op: Op): Outcome {
    match op
    case Block(id, blockType) => BlockStep(s, id, blockType)
    case TimerReady(id) => TimerReadyStep(s, id)
    case Unblock(id) => UnblockStep(s, id)
    case Receive => ReceiveStep(s)
    case HandleNext => HandleStep(s)
  }

  // ---- runs ----

  /** The state and all launches after `ops`, oldest first, or `Panic` once a step has panicked. */
  function Execute(accounts: set<Account>, ops: seq<Op>): Outcome {
    if ops == [] then Done(Init(accounts), [])
    else
      match Execute(accounts, ops[..|ops| - 1])
      case Panic => Panic
      case Done(s, log) =>
        match Step(s, ops[|ops| - 1])
        case Panic => Panic
        case Done(s', launched) => Done(s', log + launched)
  }

  // ---- what the calls ask for ----

  /** Until when a timed block of `id` runs: the latest time asked for since its timer last ticked or its
      blocker was made. */
  function RunningUntil(accounts: set<Account>, ops: seq<Op>, id: BlockerId): Option<int> {
    if ops == [] then None
    else
      var before := RunningUntil(accounts, ops[..|ops| - 1], id);
      match ops[|ops| - 1]
      case Block(i, Timed(end)) =>
        if i != id || (before.Some? && before.value > end) then before else Some(end)
      case TimerReady(i) => if i == id then None else before
      case HandleNext =>
        if Execute(accounts, ops).Done? && id in Execute(accounts, ops).state.blockers then before else None
      case _ => before
  }

  /** A `block` counts unless a timed block is running that ends later; a manual one does not end a timed one. */
  predicate Counts(runningUntil: Option<int>, blockType: BlockType) {
    runningUntil.None? || (blockType.Timed? && blockType.endTime >= runningUntil.value)
  }

  /** Whether the last call for `id` in the run that counts was `block`. */
  predicate WantsBlocked(accounts: set<Account>, ops: seq<Op>, id: BlockerId) {
    ops != [] &&
    var earlier := ops[..|ops| - 1];
    match ops[|ops| - 1]
    case Block(i, blockType) =>
      (i == id && Counts(RunningUntil(accounts, earlier, id), blockType)) || WantsBlocked(accounts, earlier, id)
    case Unblock(i) => i != id && WantsBlocked(accounts, earlier, id)
    case _ => WantsBlocked(accounts, earlier, id)
  }
}
