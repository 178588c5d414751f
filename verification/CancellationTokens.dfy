/** Linked cancellation tokens as a state machine over the separate atomic steps of `cancel` and
    `create_linked_token`, run by any number of threads on a growing forest of tokens.

    A `cancel` call is a stack of frames because a handler cancels the linked token recursively while
    the handler list of the source token stays locked. */
module CancellationTokens {
  import opened Domain

  /** Where a `cancel` of one token stands: the flag is still to be stored, the handler list is still to
      be locked, or it is locked and the handlers before `next` have been called. */
  datatype Pc = SetFlag | AwaitLock | Visiting(next: nat)

  datatype Frame = Frame(token: nat, pc: Pc)

  datatype CreatePc = Register | CheckFlag

  datatype Call =
    | Idle
    | Cancel(stack: seq<Frame>)
    | Create(parent: nat, child: nat, pc: CreatePc)

  /** Tokens are numbered in creation order. `dropped` tokens have lost their last owner, so the weak
      reference in their source's handler no longer upgrades. `requested` records the tokens on which a
      caller itself called `cancel`. */
  datatype State = State(
    flags: seq<bool>,
    handlers: seq<seq<nat>>,
    parents: seq<Option<nat>>,
    threads: seq<Call>,
    dropped: set<nat>,
    requested: set<nat>)

  datatype Op =
    | NewToken
    | CallCancel(thread: nat, token: nat)
    | CallCreate(thread: nat, parent: nat)
    | Drop(token: nat)
    | Advance(thread: nat)

  function Init(threads: nat): State {
    State([], [], [], seq(threads, _ => Idle), {}, {})
  }

  ghost predicate HoldsLock(call: Call, t: nat) {
    call.Cancel? && exists k :: 0 <= k < |call.stack| && call.stack[k].token == t && call.stack[k].pc.Visiting?
  }

  ghost predicate Locked(s: State, t: nat) {
    exists th :: 0 <= th < |s.threads| && HoldsLock(s.threads[th], t)
  }

  ghost predicate Uses(call: Call, t: nat) {
    match call
    case Idle => false
    case Cancel(stack) => exists k :: 0 <= k < |stack| && stack[k].token == t
    case Create(parent, child, _) => t == parent || t == child
  }

  ghost predicate Alive(s: State, t: nat) {
    t < |s.flags| && t !in s.dropped
  }

  /** `create_linked_token` makes the token before it registers it with the source. */
  function NewLinked(s: State, parent: Option<nat>): State {
    s.(flags := s.flags + [false], handlers := s.handlers + [[]], parents := s.parents + [parent])
  }

  function WithCall(s: State, th: nat, call: Call): State
    requires th < |s.threads|
  {
    s.(threads := s.threads[th := call])
  }

  /** What becomes of the topmost frame: the frames that replace it. */
  function TopAfter(s: State, top: Frame): seq<Frame>
    requires top.token < |s.handlers|
  {
    var handlers := s.handlers[top.token];
    match top.pc
    case SetFlag => [Frame(top.token, AwaitLock)]
    case AwaitLock => [Frame(top.token, Visiting(0))]
    case Visiting(i) =>
      if i >= |handlers| then []
      else if handlers[i] in s.dropped then [Frame(top.token, Visiting(i + 1))]
      else [Frame(top.token, Visiting(i + 1)), Frame(handlers[i], SetFlag)]
  }

  function FlagsAfter(s: State, top: Frame): seq<bool>
    requires top.token < |s.flags|
  {
    if top.pc.SetFlag? then s.flags[top.token := true] else s.flags
  }

  ghost function AdvanceCancel(s: State, th: nat, stack: seq<Frame>): Option<State>
    requires th < |s.threads|
  {
    if stack == [] then None
    else
      var top := stack[|stack| - 1];
      if top.token >= |s.flags| || top.token >= |s.handlers| then None
      else if top.pc.AwaitLock? && Locked(s, top.token) then None
      else
        var after := stack[..|stack| - 1] + TopAfter(s, top);
        Some(WithCall(s.(flags := FlagsAfter(s, top)), th, if after == [] then Idle else Cancel(after)))
  }

  ghost function AdvanceCreate(s: State, th: nat, parent: nat, child: nat, pc: CreatePc): Option<State>
    requires th < |s.threads|
  {
    if parent >= |s.flags| || parent >= |s.handlers| then None
    else
      match pc
      case Register =>
        if Locked(s, parent) then None
        else
          Some(WithCall(s.(handlers := s.handlers[parent := s.handlers[parent] + [child]]),
                        th, Create(parent, child, CheckFlag)))
      case CheckFlag =>
        Some(WithCall(s, th, if s.flags[parent] then Cancel([Frame(child, SetFlag)]) else Idle))
  }

  ghost function AdvanceStep(s: State, th: nat): Option<State> {
    if th >= |s.threads| then None
    else
      match s.threads[th]
      case Idle => None
      case Cancel(stack) => AdvanceCancel(s, th, stack)
      case Create(parent, child, pc) => AdvanceCreate(s, th, parent, child, pc)
  }

  /** `None` when the step is not possible in `s`. */
  ghost function Step(s: State, op: Op): Option<State> {
    match op
    case NewToken => Some(NewLinked(s, None))
    case CallCancel(th, t) =>
      if th < |s.threads| && s.threads[th].Idle? && Alive(s, t) then
        Some(WithCall(s, th, Cancel([Frame(t, SetFlag)])).(requested := s.requested + {t}))
      else None
    case CallCreate(th, p) =>
      if th < |s.threads| && s.threads[th].Idle? && Alive(s, p) then
        Some(WithCall(NewLinked(s, Some(p)), th, Create(p, |s.flags|, Register)))
      else None
    case Drop(t) =>
      if Alive(s, t) && forall th :: 0 <= th < |s.threads| ==> !Uses(s.threads[th], t) then
        Some(s.(dropped := s.dropped + {t}))
      else None
    case Advance(th) => AdvanceStep(s, th)
  }

  ghost function Execute(threads: nat, ops: seq<Op>): Option<State> {
    if ops == [] then Some(Init(threads))
    else
      var before := Execute(threads, ops[..|ops| - 1]);
      if before.None? then None else Step(before.value, ops[|ops| - 1])
  }

  ghost predicate Quiescent(s: State) {
    forall th :: 0 <= th < |s.threads| ==> s.threads[th].Idle?
  }

  // ---- well-formedness ----

  ghost predicate FrameOk(s: State, f: Frame)
    requires |s.flags| == |s.handlers|
  {
    && f.token < |s.flags|
    && (!f.pc.SetFlag? ==> s.flags[f.token])
    && (f.pc.Visiting? ==> f.pc.next <= |s.handlers[f.token]|)
  }

  /** A frame above another one was pushed by a handler of the token below. */
  ghost predicate Nested(s: State, below: Frame, above: Frame) {
    below.pc.Visiting? && above.token < |s.parents| && s.parents[above.token] == Some(below.token)
  }

  ghost predicate CallOk(s: State, call: Call)
    requires |s.flags| == |s.handlers| == |s.parents|
  {
    match call
    case Idle => true
    case Cancel(stack) =>
      && stack != []
      && (forall k :: 0 <= k < |stack| ==> FrameOk(s, stack[k]))
      && (forall k {:trigger stack[k]} :: 0 < k < |stack| ==> Nested(s, stack[k - 1], stack[k]))
    case Create(parent, child, pc) =>
      && child < |s.parents| && s.parents[child] == Some(parent) && parent < child
      && (pc.CheckFlag? ==> child in s.handlers[parent])
  }

  ghost predicate LinksTo(parents: seq<Option<nat>>, handlers: seq<nat>, p: nat) {
    forall i :: 0 <= i < |handlers| ==> handlers[i] < |parents| && parents[handlers[i]] == Some(p)
  }

  ghost predicate ForestOk(s: State) {
    && |s.flags| == |s.handlers| == |s.parents|
    && (forall c :: 0 <= c < |s.parents| && s.parents[c].Some? ==> s.parents[c].value < c)
    && (forall p: nat :: p < |s.handlers| ==> LinksTo(s.parents, s.handlers[p], p))
  }

  ghost predicate WellFormed(s: State) {
    && ForestOk(s)
    && (forall th :: 0 <= th < |s.threads| ==> CallOk(s, s.threads[th]))
  }

  // ---- nothing is forgotten ----

  /** The frame will still see to `c`, a token linked to `p`. */
  ghost predicate FrameCovers(s: State, f: Frame, p: nat, c: nat) {
    || (f.token == c && f.pc.SetFlag?)
    || (f.token == p && p < |s.handlers| && f.pc.AwaitLock? && c in s.handlers[p])
    || (f.token == p && p < |s.handlers| && f.pc.Visiting? && f.pc.next <= |s.handlers[p]|
       && c in s.handlers[p][f.pc.next..])
  }

  ghost predicate Covers(s: State, call: Call, p: nat, c: nat) {
    match call
    case Idle => false
    case Cancel(stack) => exists k :: 0 <= k < |stack| && FrameCovers(s, stack[k], p, c)
    case Create(_, child, _) => child == c
  }

  ghost predicate Covered(s: State, p: nat, c: nat) {
    exists th :: 0 <= th < |s.threads| && Covers(s, s.threads[th], p, c)
  }

  ghost predicate Registering(call: Call, c: nat) {
    call.Create? && call.child == c
  }

  /** Every linked token is registered with its source or its creation is still running; and once the
      source is flagged, it is flagged too, or dropped, or some running call will still see to it. */
  ghost predicate LinkOk(s: State, p: nat, c: nat)
    requires |s.flags| == |s.handlers| == |s.parents|
    requires p < c < |s.parents|
  {
    && (c in s.handlers[p] || exists th :: 0 <= th < |s.threads| && Registering(s.threads[th], c))
    && (s.flags[p] && c !in s.dropped ==> s.flags[c] || Covered(s, p, c))
  }

  ghost predicate WillFlag(call: Call, t: nat) {
    call.Cancel? && exists k :: 0 <= k < |call.stack| && call.stack[k] == Frame(t, SetFlag)
  }

  ghost predicate RequestOk(s: State, t: nat) {
    && t < |s.flags|
    && (s.flags[t] || exists th :: 0 <= th < |s.threads| && WillFlag(s.threads[th], t))
  }

  ghost predicate Invariant(s: State) {
    && WellFormed(s)
    && (forall c :: 0 <= c < |s.parents| && s.parents[c].Some? ==> LinkOk(s, s.parents[c].value, c))
    && (forall t :: t in s.requested ==> RequestOk(s, t))
  }

  // ---- every step keeps it ----

  /** Tokens, flags, handlers and drops only ever accumulate. */
  ghost predicate Grows(s: State, s': State) {
    && |s.flags| == |s.handlers| == |s.parents| <= |s'.flags| == |s'.handlers| == |s'.parents|
    && (forall t :: 0 <= t < |s.flags| && s.flags[t] ==> s'.flags[t])
    && (forall t :: 0 <= t < |s.handlers| ==> s.handlers[t] <= s'.handlers[t])
    && s.parents <= s'.parents
    && s.dropped <= s'.dropped
  }

  lemma CallOkGrows(s: State, s': State, call: Call)
    requires Grows(s, s') && CallOk(s, call)
    ensures CallOk(s', call)
  {
    if call.Cancel? {
      forall k | 0 <= k < |call.stack| ensures FrameOk(s', call.stack[k]) {
        assert FrameOk(s, call.stack[k]);
      }
      forall k {:trigger call.stack[k]} | 0 < k < |call.stack| ensures Nested(s', call.stack[k - 1], call.stack[k]) {
        assert Nested(s, call.stack[k - 1], call.stack[k]);
      }
    }
  }

  lemma FrameCoversGrows(s: State, s': State, f: Frame, p: nat, c: nat)
    requires Grows(s, s') && FrameCovers(s, f, p, c)
    ensures FrameCovers(s', f, p, c)
  {
    if p < |s.handlers| {
      var h, h' := s.handlers[p], s'.handlers[p];
      assert h <= h';
      if f.pc.Visiting? && f.pc.next <= |h| && c in h[f.pc.next..] {
        var j :| f.pc.next <= j < |h| && h[j] == c;
        assert h'[j] == c && h'[f.pc.next..][j - f.pc.next] == c;
      }
    }
  }

  lemma CoversGrows(s: State, s': State, call: Call, p: nat, c: nat)
    requires Grows(s, s') && Covers(s, call, p, c)
    ensures Covers(s', call, p, c)
  {
    if call.Cancel? {
      var k :| 0 <= k < |call.stack| && FrameCovers(s, call.stack[k], p, c);
      FrameCoversGrows(s, s', call.stack[k], p, c);
    }
  }

  /** What a step of thread `th` owes to the link from `p` to `c`. */
  ghost predicate HandsOver(s: State, s': State, th: nat, p: nat, c: nat)
    requires th < |s.threads| && th < |s'.threads|
    requires |s'.flags| == |s'.handlers| == |s'.parents| && p < c < |s'.parents|
  {
    && (Registering(s.threads[th], c) ==> c in s'.handlers[p] || Registering(s'.threads[th], c))
    && (Covers(s, s.threads[th], p, c) && s'.flags[p] && c !in s'.dropped ==>
          s'.flags[c] || Covers(s', s'.threads[th], p, c))
    && (p < |s.flags| && s'.flags[p] && !s.flags[p] && c in s'.handlers[p] ==> Covers(s', s'.threads[th], p, c))
  }

  lemma LinkKept(s: State, s': State, th: nat, p: nat, c: nat)
    requires Grows(s, s') && th < |s.threads| == |s'.threads|
    requires forall o :: 0 <= o < |s.threads| && o != th ==> s'.threads[o] == s.threads[o]
    requires p < c < |s.parents| && LinkOk(s, p, c) && HandsOver(s, s', th, p, c)
    ensures LinkOk(s', p, c)
  {
    if c !in s.handlers[p] {
      var o :| 0 <= o < |s.threads| && Registering(s.threads[o], c);
      assert o != th ==> Registering(s'.threads[o], c) && Covers(s', s'.threads[o], p, c);
      assert o == th ==> Covers(s, s.threads[o], p, c);
    }
    if s.flags[p] && c !in s'.dropped && !s.flags[c] {
      var o :| 0 <= o < |s.threads| && Covers(s, s.threads[o], p, c);
      if o != th {
        CoversGrows(s, s', s.threads[o], p, c);
      }
    }
  }

  lemma RequestKept(s: State, s': State, th: nat, t: nat)
    requires Grows(s, s') && th < |s.threads| == |s'.threads|
    requires forall o :: 0 <= o < |s.threads| && o != th ==> s'.threads[o] == s.threads[o]
    requires RequestOk(s, t) && (WillFlag(s.threads[th], t) ==> s'.flags[t] || WillFlag(s'.threads[th], t))
    ensures RequestOk(s', t)
  {
    if !s.flags[t] {
      var o :| 0 <= o < |s.threads| && WillFlag(s.threads[o], t);
      assert o != th ==> WillFlag(s'.threads[o], t);
    }
  }

  lemma TopAfterOk(s: State, s': State, top: Frame)
    requires ForestOk(s) && FrameOk(s, top)
    requires s' == s.(flags := FlagsAfter(s, top), threads := s'.threads)
    ensures forall j :: 0 <= j < |TopAfter(s, top)| ==> FrameOk(s', TopAfter(s, top)[j])
    ensures |TopAfter(s, top)| == 2 ==> Nested(s', TopAfter(s, top)[0], TopAfter(s, top)[1])
    ensures |TopAfter(s, top)| > 0 ==> TopAfter(s, top)[0].token == top.token
  {
    assert LinksTo(s.parents, s.handlers[top.token], top.token);
  }

  lemma TopHandsOver(s: State, s': State, top: Frame, p: nat, c: nat) returns (j: nat)
    requires ForestOk(s) && FrameOk(s, top)
    requires s' == s.(flags := FlagsAfter(s, top), threads := s'.threads)
    requires p < c < |s.flags| && FrameCovers(s, top, p, c) && c !in s.dropped && !s'.flags[c]
    ensures j < |TopAfter(s, top)| && FrameCovers(s', TopAfter(s, top)[j], p, c)
  {
    j := 0;
    if top.pc.Visiting? {
      var h, i := s.handlers[p], top.pc.next;
      assert c == h[i] || c in h[i + 1..];
      if c == h[i] {
        j := 1;
      }
    } else if top.pc.AwaitLock? {
      assert s.handlers[p][0..] == s.handlers[p];
    }
  }

  /** The parts of a thread's `cancel` step that the lemmas below share. */
  lemma AdvanceCancelShape(s: State, th: nat) returns (s': State, lower: seq<Frame>, top: Frame)
    requires WellFormed(s) && th < |s.threads| && s.threads[th].Cancel? && AdvanceStep(s, th).Some?
    ensures s' == AdvanceStep(s, th).value && Grows(s, s')
    ensures s.threads[th].stack == lower + [top] && FrameOk(s, top)
    ensures s' == s.(flags := FlagsAfter(s, top), threads := s'.threads)
    ensures s'.threads == s.threads[th := if lower + TopAfter(s, top) == [] then Idle
            else Cancel(lower + TopAfter(s, top))]
  {
    var call := s.threads[th];
    s', lower, top := AdvanceStep(s, th).value, call.stack[..|call.stack| - 1], call.stack[|call.stack| - 1];
    assert CallOk(s, call);
    assert s' == AdvanceCancel(s, th, call.stack).value;
  }

  lemma CancelStackOk(s: State, s': State, lower: seq<Frame>, top: Frame)
    requires ForestOk(s) && Grows(s, s') && CallOk(s, Cancel(lower + [top])) && top.token < |s.handlers|
    requires s' == s.(flags := FlagsAfter(s, top), threads := s'.threads)
    requires lower + TopAfter(s, top) != []
    ensures CallOk(s', Cancel(lower + TopAfter(s, top)))
  {
    var stack, after := lower + [top], lower + TopAfter(s, top);
    var n := |lower|;
    assert stack[n] == top;
    TopAfterOk(s, s', top);
    CallOkGrows(s, s', Cancel(stack));
    forall k | 0 <= k < |after| ensures FrameOk(s', after[k]) {
      if k < n {
        assert after[k] == stack[k];
      } else {
        assert after[k] == TopAfter(s, top)[k - n];
      }
    }
    forall k {:trigger after[k]} | 0 < k < |after| ensures Nested(s', after[k - 1], after[k]) {
      if k <= n {
        assert Nested(s', stack[k - 1], stack[k]) && after[k - 1] == stack[k - 1];
      }
    }
  }

  lemma AdvanceCancelWellFormed(s: State, th: nat)
    requires WellFormed(s) && th < |s.threads| && s.threads[th].Cancel? && AdvanceStep(s, th).Some?
    ensures WellFormed(AdvanceStep(s, th).value)
  {
    var s', lower, top := AdvanceCancelShape(s, th);
    forall o | 0 <= o < |s'.threads| ensures CallOk(s', s'.threads[o]) {
      assert CallOk(s, s.threads[o]);
      if o != th {
        CallOkGrows(s, s', s.threads[o]);
      } else if lower + TopAfter(s, top) != [] {
        CancelStackOk(s, s', lower, top);
      }
    }
  }

  lemma AdvanceCancelHandsOver(s: State, th: nat, p: nat, c: nat)
    requires WellFormed(s) && th < |s.threads| && s.threads[th].Cancel? && AdvanceStep(s, th).Some?
    requires p < c < |s.parents|
    ensures HandsOver(s, AdvanceStep(s, th).value, th, p, c)
  {
    var s', lower, top := AdvanceCancelShape(s, th);
    var stack, after := lower + [top], lower + TopAfter(s, top);
    if Covers(s, s.threads[th], p, c) && s'.flags[p] && c !in s'.dropped && !s'.flags[c] {
      var k :| 0 <= k < |stack| && FrameCovers(s, stack[k], p, c);
      if k < |lower| {
        FrameCoversGrows(s, s', stack[k], p, c);
        assert after[k] == stack[k];
      } else {
        var j := TopHandsOver(s, s', top, p, c);
        assert after[|lower| + j] == TopAfter(s, top)[j];
      }
    }
    if s'.flags[p] && !s.flags[p] && c in s'.handlers[p] {
      assert top == Frame(p, SetFlag) && after[|lower|] == Frame(p, AwaitLock);
      assert FrameCovers(s', after[|lower|], p, c);
    }
  }

  lemma AdvanceCancelKeepsWill(s: State, th: nat, t: nat)
    requires WellFormed(s) && th < |s.threads| && s.threads[th].Cancel? && AdvanceStep(s, th).Some?
    ensures WillFlag(s.threads[th], t) ==>
              t < |s.flags| && (AdvanceStep(s, th).value.flags[t] || WillFlag(AdvanceStep(s, th).value.threads[th], t))
  {
    var s', lower, top := AdvanceCancelShape(s, th);
    var stack, after := lower + [top], lower + TopAfter(s, top);
    if WillFlag(s.threads[th], t) {
      var k :| 0 <= k < |stack| && stack[k] == Frame(t, SetFlag);
      assert CallOk(s, s.threads[th]) && FrameOk(s, stack[k]);
      assert k < |lower| ==> after[k] == stack[k];
    }
  }

  lemma AdvanceCancelKeeps(s: State, th: nat)
    requires Invariant(s) && th < |s.threads| && s.threads[th].Cancel? && AdvanceStep(s, th).Some?
    ensures Invariant(AdvanceStep(s, th).value)
  {
    var s', lower, top := AdvanceCancelShape(s, th);
    AdvanceCancelWellFormed(s, th);
    forall c | 0 <= c < |s'.parents| && s'.parents[c].Some? ensures LinkOk(s', s'.parents[c].value, c) {
      AdvanceCancelHandsOver(s, th, s.parents[c].value, c);
      LinkKept(s, s', th, s.parents[c].value, c);
    }
    forall t | t in s'.requested ensures RequestOk(s', t) {
      AdvanceCancelKeepsWill(s, th, t);
      RequestKept(s, s', th, t);
    }
  }

  lemma AdvanceCreateKeeps(s: State, th: nat)
    requires Invariant(s) && th < |s.threads| && s.threads[th].Create? && AdvanceStep(s, th).Some?
    ensures Invariant(AdvanceStep(s, th).value)
  {
    var s' := AdvanceStep(s, th).value;
    var call := s.threads[th];
    assert CallOk(s, call);
    assert Grows(s, s');
    forall o | 0 <= o < |s'.threads| ensures CallOk(s', s'.threads[o]) {
      if o != th {
        CallOkGrows(s, s', s.threads[o]);
      }
    }
    forall c | 0 <= c < |s'.parents| && s'.parents[c].Some? ensures LinkOk(s', s'.parents[c].value, c) {
      var p := s.parents[c].value;
      if s'.threads[th].Cancel? {
        assert s'.threads[th].stack[0] == Frame(call.child, SetFlag);
        assert FrameCovers(s', s'.threads[th].stack[0], call.parent, call.child);
      }
      assert HandsOver(s, s', th, p, c);
      LinkKept(s, s', th, p, c);
    }
    forall t | t in s'.requested ensures RequestOk(s', t) {
      RequestKept(s, s', th, t);
    }
  }

  lemma CallCancelKeeps(s: State, th: nat, t: nat)
    requires Invariant(s) && Step(s, CallCancel(th, t)).Some?
    ensures Invariant(Step(s, CallCancel(th, t)).value)
  {
    var s' := Step(s, CallCancel(th, t)).value;
    assert Grows(s, s');
    forall o | 0 <= o < |s'.threads| ensures CallOk(s', s'.threads[o]) {
      if o != th {
        CallOkGrows(s, s', s.threads[o]);
      }
    }
    forall c | 0 <= c < |s'.parents| && s'.parents[c].Some? ensures LinkOk(s', s'.parents[c].value, c) {
      LinkKept(s, s', th, s.parents[c].value, c);
    }
    assert s'.threads[th].stack[0] == Frame(t, SetFlag);
    assert WillFlag(s'.threads[th], t);
    forall r | r in s'.requested ensures RequestOk(s', r) {
      if r in s.requested {
        RequestKept(s, s', th, r);
      }
    }
  }

  lemma CallCreateKeeps(s: State, th: nat, p: nat)
    requires Invariant(s) && Step(s, CallCreate(th, p)).Some?
    ensures Invariant(Step(s, CallCreate(th, p)).value)
  {
    var s' := Step(s, CallCreate(th, p)).value;
    var n := |s.flags|;
    assert Grows(s, s');
    forall o | 0 <= o < |s'.threads| ensures CallOk(s', s'.threads[o]) {
      if o != th {
        CallOkGrows(s, s', s.threads[o]);
      }
    }
    forall c | 0 <= c < |s'.parents| && s'.parents[c].Some? ensures LinkOk(s', s'.parents[c].value, c) {
      if c < n {
        LinkKept(s, s', th, s.parents[c].value, c);
      } else {
        assert Registering(s'.threads[th], c) && Covers(s', s'.threads[th], p, c);
      }
    }
    forall r | r in s'.requested ensures RequestOk(s', r) {
      RequestKept(s, s', th, r);
    }
  }

  /** Steps that touch no call: making an unlinked token and dropping one. */
  lemma BystanderKeeps(s: State, op: Op)
    requires Invariant(s) && (op.NewToken? || op.Drop?) && Step(s, op).Some?
    ensures Invariant(Step(s, op).value)
  {
    var s' := Step(s, op).value;
    assert Grows(s, s') && s'.threads == s.threads;
    forall o | 0 <= o < |s'.threads| ensures CallOk(s', s'.threads[o]) {
      CallOkGrows(s, s', s.threads[o]);
    }
    forall c | 0 <= c < |s'.parents| && s'.parents[c].Some? ensures LinkOk(s', s'.parents[c].value, c) {
      var p := s.parents[c].value;
      assert LinkOk(s, p, c);
      if s.flags[p] && c !in s'.dropped && !s.flags[c] {
        var o :| 0 <= o < |s.threads| && Covers(s, s.threads[o], p, c);
        CoversGrows(s, s', s.threads[o], p, c);
      }
    }
    forall r | r in s'.requested ensures RequestOk(s', r) {
      assert RequestOk(s, r);
    }
  }

  lemma StepKeepsInvariant(s: State, op: Op)
    requires Invariant(s) && Step(s, op).Some?
    ensures Invariant(Step(s, op).value)
  {
    match op
    case NewToken => BystanderKeeps(s, op);
    case Drop(_) => BystanderKeeps(s, op);
    case CallCancel(th, t) => CallCancelKeeps(s, th, t);
    case CallCreate(th, p) => CallCreateKeeps(s, th, p);
    case Advance(th) =>
      if s.threads[th].Cancel? {
        AdvanceCancelKeeps(s, th);
      } else {
        AdvanceCreateKeeps(s, th);
      }
  }

  lemma {:induction false} ReachableInvariant(threads: nat, ops: seq<Op>)
    requires Execute(threads, ops).Some?
    ensures Invariant(Execute(threads, ops).value)
  {
    if ops != [] {
      ReachableInvariant(threads, ops[..|ops| - 1]);
      StepKeepsInvariant(Execute(threads, ops[..|ops| - 1]).value, ops[|ops| - 1]);
    }
  }
}
