/** Runs of the request limiter in which a period holds more requests than the limit. */
module RequestWitnesses {
  import opened Domain
  import opened RequestLimits

  lemma RunNext(limit: nat, period: nat, ops: seq<Op>, op: Op, start: Time)
    ensures Run(limit, period, ops + [op], start) == Next(Run(limit, period, ops, start), op)
  {
    assert (ops + [op])[..|ops|] == ops;
  }

  // ---- lists of requests ----

  lemma {:induction false} KeptAll(requests: seq<Request>, deadline: Time)
    requires forall r :: r in requests ==> r.time >= deadline
    ensures Kept(requests, deadline) == requests
    decreases |requests|
  {
    if requests != [] {
      var n := |requests| - 1;
      assert requests == requests[..n] + [requests[n]];
      KeptAll(requests[..n], deadline);
    }
  }

  lemma KeptAdd(requests: seq<Request>, r: Request, deadline: Time)
    ensures Kept(requests + [r], deadline) == Kept(requests, deadline) + if r.time >= deadline then [r] else []
  {
    assert (requests + [r])[..|requests|] == requests;
  }

  lemma LatestAdd(requests: seq<Request>, r: Request)
    requires forall q :: q in requests ==> q.time <= r.time
    ensures Latest(requests + [r]) == r.time
  {
    assert (requests + [r])[..|requests|] == requests;
    if requests != [] {
      LatestIsStored(requests);
    }
  }

  lemma {:induction false} LatestIsStored(requests: seq<Request>)
    requires requests != []
    ensures exists r :: r in requests && r.time == Latest(requests)
    decreases |requests|
  {
    var n := |requests| - 1;
    assert requests == requests[..n] + [requests[n]];
    if n > 0 {
      LatestIsStored(requests[..n]);
    }
  }

  /** Without groups the load is the number of requests. */
  lemma UngroupedLoad(l: Limiter, f: Request -> bool)
    requires l.groups == []
    ensures Load(l, f) == Count(l.requests, f)
  {
    CountSame(l.requests, Outside(f, Live(l.groups)), f);
  }

  function At(time: Time): Request {
    Request(time, None)
  }

  function TwoOf(a: Time, b: Time): seq<Request> {
    [At(a)] + [At(b)]
  }

  function ThreeOf(a: Time, b: Time, c: Time): seq<Request> {
    TwoOf(a, b) + [At(c)]
  }

  function FourOf(a: Time, b: Time, c: Time, d: Time): seq<Request> {
    ThreeOf(a, b, c) + [At(d)]
  }

  function One(selected: bool): nat {
    if selected then 1 else 0
  }

  lemma CountsOf(a: Time, b: Time, c: Time, d: Time, f: Request -> bool)
    ensures Count([At(a)], f) == One(f(At(a)))
    ensures Count(TwoOf(a, b), f) == One(f(At(a))) + One(f(At(b)))
    ensures Count(ThreeOf(a, b, c), f) == One(f(At(a))) + One(f(At(b))) + One(f(At(c)))
    ensures Count(FourOf(a, b, c, d), f) == One(f(At(a))) + One(f(At(b))) + One(f(At(c))) + One(f(At(d)))
  {
    assert [] + [At(a)] == [At(a)];
    CountAdd([], At(a), f);
    CountAdd([At(a)], At(b), f);
    CountAdd(TwoOf(a, b), At(c), f);
    CountAdd(ThreeOf(a, b, c), At(d), f);
  }

  // ---- an instant request before scheduled ones ----

  /** A limiter of two requests per period that has stored these requests. */
  function Holding(period: nat, requests: seq<Request>, lastTime: Time): Limiter {
    Limiter(2, period, requests, [], 0, Some(lastTime))
  }

  lemma StartIs(l: Limiter, now: Time, last: Time, start: Time)
    requires l.groups == [] && l.requests != [] && Latest(l.requests) == last && start >= now
    requires start == if Count(l.requests, From(last - l.period)) >= l.limit then last + l.period + 1
                      else if last >= now then last else now
    ensures StartTime(l, now) == start
  {
    UngroupedLoad(l, From(last - l.period));
  }

  lemma ScheduleIs(l: Limiter, t: Time, start: Time)
    requires EffectiveTime(l, t) == t && Prune(l, t) == l && StartTime(l, t) == start
    ensures Do(l, Schedule(t)) == Result(Granting(l, At(start)).(lastTime := Some(t)), Some(At(start)))
  {
  }

  lemma PruneNone(l: Limiter, now: Time)
    requires forall r :: r in l.requests ==> r.time >= now - l.period
    ensures Prune(l, now) == l
  {
    KeptAll(l.requests, now - l.period);
  }

  lemma ScheduleAfter(l: Limiter, t: Time, last: Time, start: Time)
    requires l.groups == [] && EffectiveTime(l, t) == t && l.requests != [] && Latest(l.requests) == last
    requires forall r :: r in l.requests ==> r.time >= t - l.period
    requires start >= t
    requires start == if Count(l.requests, From(last - l.period)) >= l.limit then last + l.period + 1
                      else if last >= t then last else t
    ensures Do(l, Schedule(t)) == Result(Granting(l, At(start)).(lastTime := Some(t)), Some(At(start)))
  {
    PruneNone(l, t);
    StartIs(l, t, last, start);
    ScheduleIs(l, t, start);
  }

  lemma InstantIs(l: Limiter, t: Time, kept: seq<Request>)
    requires l.groups == [] && EffectiveTime(l, t) == t && Kept(l.requests, t - l.period) == kept
    requires Count(kept, UpTo(t)) < l.limit
    ensures Do(l, Instant(t)).granted == Some(At(t))
  {
    UngroupedLoad(Prune(l, t), UpTo(t));
  }

  lemma GroupInstantIs(l: Limiter, t: Time, g: Group)
    requires EffectiveTime(l, t) == t && Prune(l, t) == l && FindGroup(l.groups, g.id) == Some(g)
    requires Count(l.requests, InGroup(UpTo(t), g.id)) < g.reserved
    ensures Do(l, GroupInstant(t, g.id)) ==
            Result(Granting(l, Request(t, Some(g.id))), Some(Request(t, Some(g.id))))
  {
  }

  lemma ScheduleFirst(period: nat)
    ensures Do(Fresh(2, period), Schedule(0)) == Result(Holding(period, [At(0)], 0), Some(At(0)))
  {
    assert Prune(Fresh(2, period), 0) == Fresh(2, period);
    assert [] + [At(0)] == [At(0)];
  }

  lemma ScheduleSecond(period: nat)
    requires period > 0
    ensures Do(Holding(period, [At(0)], 0), Schedule(1)) == Result(Holding(period, TwoOf(0, 1), 1), Some(At(1)))
  {
    CountsOf(0, 0, 0, 0, From(0 - period));
    ScheduleAfter(Holding(period, [At(0)], 0), 1, 0, 1);
  }

  lemma ScheduleThird(period: nat)
    requires period > 0
    ensures Do(Holding(period, TwoOf(0, 1), 1), Schedule(1)) ==
            Result(Holding(period, ThreeOf(0, 1, period + 2), 1), Some(At(period + 2)))
  {
    CountsOf(0, 1, 0, 0, From(1 - period));
    LatestAdd([At(0)], At(1));
    ScheduleAfter(Holding(period, TwoOf(0, 1), 1), 1, 1, period + 2);
  }

  lemma ScheduleFourth(period: nat)
    requires period > 0
    ensures Do(Holding(period, ThreeOf(0, 1, period + 2), 1), Schedule(1)) ==
            Result(Holding(period, FourOf(0, 1, period + 2, period + 2), 1), Some(At(period + 2)))
  {
    CountsOf(0, 1, period + 2, 0, From(2));
    LatestAdd(TwoOf(0, 1), At(period + 2));
    ScheduleAfter(Holding(period, ThreeOf(0, 1, period + 2), 1), 1, period + 2, period + 2);
  }

  lemma KeptAfterFirst(a: Request, b: Request, c: Request, d: Request, deadline: Time)
    requires a.time < deadline && b.time >= deadline && c.time >= deadline && d.time >= deadline
    ensures Kept([a] + [b] + [c] + [d], deadline) == [b] + [c] + [d]
  {
    KeptAdd([], a, deadline);
    assert [] + [a] == [a];
    assert Kept([a], deadline) == [];
    KeptAdd([a], b, deadline);
    assert [] + [b] == [b];
    KeptAdd([a] + [b], c, deadline);
    KeptAdd([a] + [b] + [c], d, deadline);
  }

  /** The first request is forgotten and the scheduled ones are not counted yet. */
  lemma InstantFifth(period: nat)
    requires period > 0
    ensures Do(Holding(period, FourOf(0, 1, period + 2, period + 2), 1), Instant(period + 1)).granted ==
            Some(At(period + 1))
  {
    var late := period + 2;
    KeptAfterFirst(At(0), At(1), At(late), At(late), 1);
    CountsOf(1, late, late, 0, UpTo(period + 1));
    InstantIs(Holding(period, FourOf(0, 1, late, late), 1), period + 1, ThreeOf(1, late, late));
  }

  function ScheduledOps(period: nat): seq<Op> {
    [] + [Schedule(0)] + [Schedule(1)] + [Schedule(1)] + [Schedule(1)] + [Instant(period + 1)]
  }

  lemma ScheduledRun(period: nat)
    requires period > 0
    ensures Run(2, period, [] + [Schedule(0)] + [Schedule(1)] + [Schedule(1)] + [Schedule(1)], 0) ==
            Trace(Holding(period, FourOf(0, 1, period + 2, period + 2), 1), FourOf(0, 1, period + 2, period + 2), 1)
  {
    RunNext(2, period, [], Schedule(0), 0);
    ScheduleFirst(period);
    assert [] + [At(0)] == [At(0)];
    RunNext(2, period, [] + [Schedule(0)], Schedule(1), 0);
    ScheduleSecond(period);
    RunNext(2, period, [] + [Schedule(0)] + [Schedule(1)], Schedule(1), 0);
    ScheduleThird(period);
    RunNext(2, period, [] + [Schedule(0)] + [Schedule(1)] + [Schedule(1)], Schedule(1), 0);
    ScheduleFourth(period);
  }

  lemma ScheduledInOrder(period: nat)
    ensures Ascending(ScheduledOps(period), 0)
  {
    var ops := ScheduledOps(period);
    assert ops == [Schedule(0), Schedule(1), Schedule(1), Schedule(1), Instant(period + 1)];
    assert forall op :: op in ops ==> !op.RemoveGroup?;
  }

  /** Although times are in order: with a limit of two, an instant request granted just before two scheduled
      ones makes three within a period. */
  lemma InstantBeforeScheduledExceeds(period: nat)
    requires period > 0
    ensures Ascending(ScheduledOps(period), 0)
    ensures Count(Run(2, period, ScheduledOps(period), 0).granted, Window(period + 2, period)) == 3
  {
    var late := period + 2;
    ScheduledInOrder(period);
    ScheduledRun(period);
    RunNext(2, period, [] + [Schedule(0)] + [Schedule(1)] + [Schedule(1)] + [Schedule(1)], Instant(period + 1), 0);
    InstantFifth(period);
    CountsOf(0, 1, late, late, Window(late, period));
    CountAdd(FourOf(0, 1, late, late), At(period + 1), Window(late, period));
  }

  // ---- a scheduled request where groups hold the whole limit ----

  function CrowdedOps(t: Time): seq<Op> {
    [] + [ReserveGroup(t, 1)] + [Schedule(t)] + [GroupInstant(t, 0)]
  }

  /** A limiter of one request per period with one group. */
  function WithGroup(period: nat, requests: seq<Request>, noted: Time): Limiter {
    Limiter(1, period, requests, [Group(0, 1)], 1, Some(noted))
  }

  lemma GroupIsReserved(period: nat, t: Time)
    ensures Do(Fresh(1, period), ReserveGroup(t, 1)) == Result(WithGroup(period, [], t), None)
  {
    assert Prune(Fresh(1, period), t) == Fresh(1, period);
    UngroupedLoad(Fresh(1, period), UpTo(t));
  }

  lemma CrowdedSchedule(period: nat, t: Time)
    ensures Do(WithGroup(period, [], t), Schedule(t)) == Result(WithGroup(period, [At(t)], t), Some(At(t)))
  {
    assert Prune(WithGroup(period, [], t), t) == WithGroup(period, [], t);
    assert [] + [At(t)] == [At(t)];
  }

  lemma GroupStillGranted(period: nat, t: Time, requests: seq<Request>, noted: Time)
    requires noted <= t && (requests == [] || requests == [At(t)])
    ensures Do(WithGroup(period, requests, noted), GroupInstant(t, 0)) ==
            Result(WithGroup(period, requests + [Request(t, Some(0))], noted), Some(Request(t, Some(0))))
  {
    var l, g := WithGroup(period, requests, noted), Group(0, 1);
    assert FindGroup(l.groups, 0) == Some(g);
    PruneNone(l, t);
    CountNone(requests, InGroup(UpTo(t), 0));
    GroupInstantIs(l, t, g);
  }

  lemma CrowdedInOrder(t: Time)
    ensures Ascending(CrowdedOps(t), t)
  {
    var ops := CrowdedOps(t);
    assert ops == [ReserveGroup(t, 1), Schedule(t), GroupInstant(t, 0)];
  }

  lemma CrowdedRun(period: nat, t: Time)
    ensures Run(1, period, CrowdedOps(t), t).granted == [At(t)] + [Request(t, Some(0))]
  {
    RunNext(1, period, [], ReserveGroup(t, 1), t);
    GroupIsReserved(period, t);
    RunNext(1, period, [] + [ReserveGroup(t, 1)], Schedule(t), t);
    CrowdedSchedule(period, t);
    RunNext(1, period, [] + [ReserveGroup(t, 1)] + [Schedule(t)], GroupInstant(t, 0), t);
    GroupStillGranted(period, t, [At(t)], t);
    assert [] + [At(t)] == [At(t)];
  }

  /** With a limit of one that a group has reserved, a request is scheduled for now all the same, and the
      group still gets its own. */
  lemma ScheduledBesideGroupExceeds(period: nat, t: Time)
    ensures Ascending(CrowdedOps(t), t)
    ensures Count(Run(1, period, CrowdedOps(t), t).granted, Window(t, period)) == 2
  {
    CrowdedInOrder(t);
    CrowdedRun(period, t);
    CountsOf(t, 0, 0, 0, Window(t, period));
    CountAdd([At(t)], Request(t, Some(0)), Window(t, period));
  }

  // ---- a clock that goes back ----

  /** Three moments within one period; the last call is made with the middle one. */
  datatype Moments = Moments(early: Time, middle: Time, late: Time, period: nat) {
    predicate Ok() {
      early <= middle < late <= middle + period
    }

    function Grant(): Request {
      Request(late, Some(0))
    }
  }

  /** A call with the time in the middle does not see a later request of a group that was removed. */
  lemma GrantedInTheMiddle(m: Moments)
    requires m.Ok()
    ensures Do(WithGroup(m.period, [m.Grant()], m.early).(groups := []), Instant(m.middle)).granted ==
            Some(At(m.middle))
  {
    var l := WithGroup(m.period, [m.Grant()], m.early).(groups := []);
    KeptAll([m.Grant()], m.middle - m.period);
    CountNone(l.requests, UpTo(m.middle));
    InstantIs(l, m.middle, [m.Grant()]);
  }

  function BackOps(m: Moments): seq<Op> {
    [] + [ReserveGroup(m.early, 1)] + [GroupInstant(m.late, 0)] + [RemoveGroup(0)] + [Instant(m.middle)]
  }

  lemma BackRun(m: Moments)
    requires m.Ok()
    ensures Run(1, m.period, [] + [ReserveGroup(m.early, 1)] + [GroupInstant(m.late, 0)] + [RemoveGroup(0)], m.early) ==
            Trace(WithGroup(m.period, [m.Grant()], m.early).(groups := []), [m.Grant()], m.late)
  {
    RunNext(1, m.period, [], ReserveGroup(m.early, 1), m.early);
    GroupIsReserved(m.period, m.early);
    RunNext(1, m.period, [] + [ReserveGroup(m.early, 1)], GroupInstant(m.late, 0), m.early);
    GroupStillGranted(m.period, m.late, [], m.early);
    var none: seq<Request> := [];
    assert none + [m.Grant()] == [m.Grant()];
    RunNext(1, m.period, [] + [ReserveGroup(m.early, 1)] + [GroupInstant(m.late, 0)], RemoveGroup(0), m.early);
  }

  /** A request of a group does not note its time: with a limit of one, two requests are granted within a
      period when the time goes back. */
  lemma ClockBackExceedsLimit(m: Moments)
    requires m.Ok()
    ensures Count(Run(1, m.period, BackOps(m), m.early).granted, Window(m.late, m.period)) == 2
  {
    BackRun(m);
    RunNext(1, m.period, [] + [ReserveGroup(m.early, 1)] + [GroupInstant(m.late, 0)] + [RemoveGroup(0)],
        Instant(m.middle), m.early);
    GrantedInTheMiddle(m);
    CountAdd([], m.Grant(), Window(m.late, m.period));
    assert [] + [m.Grant()] == [m.Grant()];
    CountAdd([m.Grant()], At(m.middle), Window(m.late, m.period));
  }
}
