/** The blocker service itself: nested maps and a channel updated in place. Every method is tied to the
    protocol step it implements, so what is proved of the protocol holds of the service. */
module ExchangeBlockers {
  import opened Domain
  import opened BlockerProtocol
  import opened BlockerSafety
  import BlockerProgress

  type Nested = map<Account, map<Reason, Blocker>>

  function Flat(nested: Nested): map<BlockerId, Blocker> {
    map a, r | a in nested && r in nested[a] :: BlockerId(a, r) := nested[a][r]
  }

  lemma FlatLookup(nested: Nested, id: BlockerId)
    ensures id in Flat(nested) <==> id.account in nested && id.reason in nested[id.account]
    ensures id in Flat(nested) ==> Flat(nested)[id] == nested[id.account][id.reason]
  {
    assert id == BlockerId(id.account, id.reason);
  }

  lemma FlatInsert(nested: Nested, id: BlockerId, b: Blocker)
    requires id.account in nested
    ensures Flat(nested[id.account := nested[id.account][id.reason := b]]) == Flat(nested)[id := b]
  {
    var after := nested[id.account := nested[id.account][id.reason := b]];
    forall i ensures (i in Flat(after) <==> i in Flat(nested)[id := b])
        && (i in Flat(after) ==> Flat(after)[i] == Flat(nested)[id := b][i]) {
      FlatLookup(nested, i);
      FlatLookup(after, i);
    }
  }

  lemma FlatRemove(nested: Nested, id: BlockerId)
    requires id.account in nested
    ensures Flat(nested[id.account := nested[id.account] - {id.reason}]) == Flat(nested) - {id}
  {
    var after := nested[id.account := nested[id.account] - {id.reason}];
    forall i ensures (i in Flat(after) <==> i in Flat(nested) - {id})
        && (i in Flat(after) ==> Flat(after)[i] == (Flat(nested) - {id})[i]) {
      FlatLookup(nested, i);
      FlatLookup(after, i);
    }
  }

  class ExchangeBlocker {
    var blockers: Nested
    var events: seq<Event>
    /** The event the processing loop has taken off the channel and not handled yet. */
    var received: Option<Event>

    ghost function View(): State
      reads this
    {
      State(blockers.Keys, Flat(blockers), (if received.Some? then [received.value] else []) + events, received.Some?)
    }

    constructor (accounts: set<Account>)
      ensures View() == Init(accounts)
    {
      blockers := map a | a in accounts :: map[];
      events, received := [], None;
      new;
      assert blockers.Keys == accounts;
      forall id ensures id !in Flat(blockers) {
        FlatLookup(blockers, id);
      }
    }

    method IsBlocked(account: Account) returns (r: bool)
      requires account in blockers
      ensures r <==> exists id :: id in View().blockers && id.account == account
    {
      r := blockers[account] != map[];
      if r {
        var reason :| reason in blockers[account];
        FlatLookup(blockers, BlockerId(account, reason));
      }
    }

    method IsBlockedByReason(account: Account, reason: Reason) returns (r: bool)
      requires account in blockers
      ensures r <==> BlockerId(account, reason) in View().blockers
    {
      r := reason in blockers[account];
      FlatLookup(blockers, BlockerId(account, reason));
    }

    /** The code compares counts; the caller gets "blocked for some other reason". */
    method IsBlockedExceptReason(account: Account, reason: Reason) returns (r: bool)
      requires account in blockers
      ensures r <==> exists id :: id in View().blockers && id.account == account && id.reason != reason
    {
      var byReason := blockers[account];
      var isPresent := reason in byReason;
      var count := |byReason|;
      r := (isPresent && count > 1) || (!isPresent && count > 0);
      var others := byReason.Keys - {reason};
      assert |others| == if isPresent then count - 1 else count by {
        assert byReason.Keys == if isPresent then others + {reason} else others;
        assert |byReason.Keys| == |byReason|;
      }
      if r {
        var other :| other in others;
        FlatLookup(blockers, BlockerId(account, other));
      } else {
        assert others == {};
        forall id | id in View().blockers && id.account == account ensures id.reason == reason {
          FlatLookup(blockers, id);
          assert id.reason == reason || id.reason in others;
        }
      }
    }

    method Block(id: BlockerId, blockType: BlockType)
      requires BlockStep(View(), id, blockType).Done?
      modifies this
      ensures View() == BlockStep(old(View()), id, blockType).state
    {
      FlatLookup(blockers, id);
      var byReason := blockers[id.account];
      var blocker;
      if id.reason in byReason {
        blocker := TimeoutResetIfExists(byReason[id.reason], blockType);
      } else {
        blocker := NewBlocker(blockType);
        events := events + [Event(id, MoveToBlocked)];
      }
      FlatInsert(blockers, id, blocker);
      blockers := blockers[id.account := byReason[id.reason := blocker]];
      assert blockers.Keys == old(blockers.Keys);
    }

    method SetProgress(id: BlockerId, p: Progress)
      requires id in View().blockers
      modifies this`blockers
      ensures View() == WithProgress(old(View()), id, p)
    {
      FlatLookup(blockers, id);
      var blocker := blockers[id.account][id.reason].(progress := p);
      FlatInsert(blockers, id, blocker);
      blockers := blockers[id.account := blockers[id.account][id.reason := blocker]];
      assert blockers.Keys == old(blockers.Keys);
    }

    /** First half of a timer tick; the second half is `Unblock`. */
    method TimerReady(id: BlockerId)
      requires id.account in blockers
      modifies this`blockers
      ensures View() == TimerReadyStep(old(View()), id).state
    {
      FlatLookup(blockers, id);
      if id.reason in blockers[id.account] {
        var blocker := blockers[id.account][id.reason].(timeout := ReadyUnblock);
        FlatInsert(blockers, id, blocker);
        blockers := blockers[id.account := blockers[id.account][id.reason := blocker]];
        assert blockers.Keys == old(blockers.Keys);
      }
    }

    method Unblock(id: BlockerId)
      requires UnblockStep(View(), id).Done?
      modifies this
      ensures View() == UnblockStep(old(View()), id).state
    {
      FlatLookup(blockers, id);
      if id.reason !in blockers[id.account] {
        return;
      }
      var p := blockers[id.account][id.reason].progress;
      if p.isUnblockRequested {
        return;
      }
      p := p.(isUnblockRequested := true);
      if p.isUnblockInQueue || p.status.AfterProgressBlocked() {
        SetProgress(id, p);
        return;
      }
      SetProgress(id, p.(isUnblockInQueue := true));
      events := events + [Event(id, UnblockRequested)];
    }

    /** Takes the oldest event off the channel, which makes room for another one. */
    method Receive()
      requires received.None? && events != []
      modifies this`events, this`received
      ensures View() == ReceiveStep(old(View())).state && |events| < old(|events|)
    {
      received, events := Some(events[0]), events[1..];
      assert View().events == old(events);
    }

    /** Moves the blocker of the event that was taken; `launched` are the handlers started. */
    method HandleNext() returns (launched: seq<Launch>)
      requires received.Some? && HandleStep(View()).Done?
      modifies this
      ensures View() == HandleStep(old(View())).state && launched == HandleStep(old(View())).launched
    {
      var event := received.value;
      assert View().events[0] == event && View().events[1..] == events;
      FlatLookup(blockers, event.id);
      received := None;
      var m := MoveNext(blockers[event.id.account][event.id.reason].progress, event.kind);
      launched := if m.launch.Some? then [Launch(event.id, m.launch.value)] else [];
      match m.progress {
        case Some(p) =>
          SetProgress(event.id, p);
        case None =>
          var byReason := blockers[event.id.account];
          FlatRemove(blockers, event.id);
          blockers := blockers[event.id.account := byReason - {event.id.reason}];
          assert blockers.Keys == old(blockers.Keys);
      }
      if m.next.Some? {
        events := events + [Event(event.id, m.next.value)];
      }
    }

    /** One turn of the processing loop with no call in between: the event taken makes room for the one that
        follows it, so the turn does not panic however many blockers there are. */
    method Turn() returns (launched: seq<Launch>)
      requires Invariant(View()) && received.None? && events != [] && |events| <= CHANNEL_CAPACITY
      modifies this
      ensures Invariant(View()) && received.None? && |events| <= CHANNEL_CAPACITY
      ensures blockers.Keys == old(blockers.Keys)
      ensures forall id :: Launch(id, Unblocked) in launched <==> id in old(View()).blockers && id !in View().blockers
      ensures View().blockers.Keys <= old(View()).blockers.Keys
      ensures BlockerProgress.Weight(events) < old(BlockerProgress.Weight(events))
      ensures forall id :: BlockerProgress.HoldsBlock(View(), id) <==> BlockerProgress.HoldsBlock(old(View()), id)
    {
      ghost var before := View();
      assert before.events == events;
      Receive();
      ghost var s := View();
      StepKeepsInvariant(before, Op.Receive);
      HandlerPanicsIffJammed(s);
      launched := HandleNext();
      StepKeepsInvariant(s, Op.HandleNext);
      BlockerProgress.HandleLowersWeight(s);
      HandleEffect(s);
      assert View().events == events;
      forall id ensures Launch(id, Unblocked) in launched <==> id in before.blockers && id !in View().blockers {
        BlockerProgress.UnblockedIffRemoved(s, id);
      }
      forall id ensures BlockerProgress.HoldsBlock(View(), id) <==> BlockerProgress.HoldsBlock(before, id) {
        BlockerProgress.StepDecides(before, Op.Receive, id);
        BlockerProgress.StepDecides(s, Op.HandleNext, id);
      }
    }

    /** The processing loop, run until the channel is empty: it never meets a missing blocker or a full
        channel, it stops, exactly the blockers without an unblock request are left, and for exactly the others
        the Unblocked handlers were launched. */
    method Processing() returns (log: seq<Launch>)
      requires Invariant(View()) && received.None? && |events| <= CHANNEL_CAPACITY
      modifies this
      ensures Invariant(View()) && View().events == [] && blockers.Keys == old(blockers.Keys)
      ensures forall id :: id in View().blockers <==> BlockerProgress.HoldsBlock(old(View()), id)
      ensures forall id :: Launch(id, Unblocked) in log <==> id in old(View()).blockers && id !in View().blockers
    {
      ghost var start := View();
      log := [];
      while events != []
        invariant Invariant(View()) && received.None? && |events| <= CHANNEL_CAPACITY
        invariant blockers.Keys == old(blockers.Keys)
        invariant forall id :: BlockerProgress.HoldsBlock(View(), id) <==> BlockerProgress.HoldsBlock(start, id)
        invariant View().blockers.Keys <= start.blockers.Keys
        invariant forall id :: Launch(id, Unblocked) in log <==> id in start.blockers && id !in View().blockers
        decreases BlockerProgress.Weight(events)
      {
        var launched := Turn();
        log := log + launched;
      }
      assert View().events == [];
      forall id ensures id in View().blockers <==> BlockerProgress.HoldsBlock(start, id) {
        assert IdInvariant(View(), id);
      }
    }
  }
}
