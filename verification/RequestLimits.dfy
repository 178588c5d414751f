/** The request limiter of an exchange account: instant requests, requests scheduled for later and groups of
    requests reserved ahead. Times are milliseconds. */
module RequestLimits {
  import opened Domain

  type Time = int
  type GroupId = nat

  datatype Request = Request(time: Time, group: Option<GroupId>)

  datatype Group = Group(id: GroupId, reserved: nat)

  /** `requests` are the stored requests; the code keeps them sorted by time, which no count depends on. */
  datatype Limiter = Limiter(limit: nat, period: nat, requests: seq<Request>, groups: seq<Group>, nextGroup: GroupId,
                             lastTime: Option<Time>)

  const DELAY_TO_NEXT_PERIOD: nat := 1

  function Fresh(limit: nat, period: nat): Limiter {
    Limiter(limit, period, [], [], 0, None)
  }

  // ---- counting ----

  function Count(requests: seq<Request>, f: Request -> bool): nat {
    if requests == [] then 0 else Count(requests[..|requests| - 1], f) + if f(requests[|requests| - 1]) then 1 else 0
  }

  function Live(groups: seq<Group>): set<GroupId> {
    set g | g in groups :: g.id
  }

  function UpTo(now: Time): Request -> bool {
    (r: Request) => r.time <= now
  }

  function From(start: Time): Request -> bool {
    (r: Request) => start <= r.time
  }

  /** The window of one period that ends at `to`. */
  function Window(to: Time, period: nat): Request -> bool {
    (r: Request) => to - period <= r.time <= to
  }

  function InGroup(f: Request -> bool, id: GroupId): Request -> bool {
    (r: Request) => f(r) && r.group == Some(id)
  }

  /** Requests of a group that was removed count as requests outside groups. */
  function Outside(f: Request -> bool, live: set<GroupId>): Request -> bool {
    (r: Request) => f(r) && (r.group.None? || r.group.value !in live)
  }

  function Max(a: nat, b: nat): nat {
    if a >= b then a else b
  }

  /** A group takes up what it has reserved or, beyond that, what it has used. */
  function GroupLoad(requests: seq<Request>, f: Request -> bool, groups: seq<Group>): nat {
    if groups == [] then 0
    else
      var g := groups[|groups| - 1];
      GroupLoad(requests, f, groups[..|groups| - 1]) + Max(g.reserved, Count(requests, InGroup(f, g.id)))
  }

  /** What the requests selected by `f` and the groups take up together. */
  function Load(l: Limiter, f: Request -> bool): nat {
    Count(l.requests, Outside(f, Live(l.groups))) + GroupLoad(l.requests, f, l.groups)
  }

  /** Saturating, as the code subtracts. */
  function Available(l: Limiter, f: Request -> bool): nat {
    if Load(l, f) >= l.limit then 0 else l.limit - Load(l, f)
  }

  function Reserved(groups: seq<Group>): nat {
    if groups == [] then 0 else Reserved(groups[..|groups| - 1]) + groups[|groups| - 1].reserved
  }

  // ---- operations ----

  function EffectiveTime(l: Limiter, t: Time): Time {
    if l.lastTime.Some? && l.lastTime.value >= t then l.lastTime.value else t
  }

  function Kept(requests: seq<Request>, deadline: Time): (kept: seq<Request>)
    ensures forall r :: r in kept ==> r in requests && r.time >= deadline
  {
    if requests == [] then []
    else
      var n := |requests| - 1;
      assert requests == requests[..n] + [requests[n]];
      Kept(requests[..n], deadline) + if requests[n].time >= deadline then [requests[n]] else []
  }

  function Prune(l: Limiter, now: Time): Limiter {
    l.(requests := Kept(l.requests, now - l.period))
  }

  /** The time of the latest stored request. */
  function Latest(requests: seq<Request>): (latest: Time)
    requires requests != []
    ensures forall r :: r in requests ==> r.time <= latest
  {
    var n := |requests| - 1;
    assert requests == requests[..n] + [requests[n]];
    if n == 0 then requests[0].time
    else
      var earlier := Latest(requests[..n]);
      if earlier >= requests[n].time then earlier else requests[n].time
  }

  datatype Op =
    | ReserveGroup(time: Time, count: nat)
    | RemoveGroup(id: GroupId)
    | Instant(time: Time)
    | GroupInstant(time: Time, id: GroupId)
    | Schedule(time: Time)

  /** The limiter afterwards and the request that was granted, if any. */
  datatype Result = Result(limiter: Limiter, granted: Option<Request>)

  function FindGroup(groups: seq<Group>, id: GroupId): Option<Group> {
    if groups == [] then None
    else if groups[|groups| - 1].id == id then Some(groups[|groups| - 1])
    else FindGroup(groups[..|groups| - 1], id)
  }

  function Without(groups: seq<Group>, id: GroupId): seq<Group> {
    if groups == [] then []
    else
      var n := |groups| - 1;
      if groups[n].id == id then groups[..n] else Without(groups[..n], id) + [groups[n]]
  }

  function Granting(l: Limiter, r: Request): Limiter {
    l.(requests := l.requests + [r])
  }

  function Reserving(l: Limiter, count: nat): Limiter {
    l.(groups := l.groups + [Group(l.nextGroup, count)], nextGroup := l.nextGroup + 1)
  }

  function DoInstant(l: Limiter, t: Time): Result {
    var now := EffectiveTime(l, t);
    var l1, r := Prune(l, now), Request(now, None);
    if Available(l1, UpTo(now)) == 0 then Result(l1, None)
    else Result(Granting(l1, r).(lastTime := Some(now)), Some(r))
  }

  /** What a group has reserved and not used yet. */
  function Rest(l: Limiter, now: Time, g: Group): nat {
    var used := Count(l.requests, InGroup(UpTo(now), g.id));
    if used >= g.reserved then 0 else g.reserved - used
  }

  /** Unlike the others this call does not note the time it was made. */
  function DoGroupInstant(l: Limiter, t: Time, g: Group): Result {
    var now := EffectiveTime(l, t);
    var l1, r := Prune(l, now), Request(now, Some(g.id));
    if Available(l1, UpTo(now)) + Rest(l1, now, g) == 0 then Result(l1, None)
    else Result(Granting(l1, r), Some(r))
  }

  function DoReserveGroup(l: Limiter, t: Time, count: nat): Result {
    var now := EffectiveTime(l, t);
    var l1 := Prune(l, now);
    if Available(l1, UpTo(now)) < count then Result(l1, None)
    else Result(Reserving(l1, count).(lastTime := Some(now)), None)
  }

  /** The time for which a request is scheduled: with the latest one, if the period up to that has room, and
      otherwise in the period after it. */
  function StartTime(l: Limiter, now: Time): (start: Time)
    ensures start >= now
  {
    if l.requests == [] then now
    else
      var latest := Latest(l.requests);
      var start :=
        if Available(l, From(latest - l.period)) == 0 then latest + l.period + DELAY_TO_NEXT_PERIOD else latest;
      if start >= now then start else now
  }

  function DoSchedule(l: Limiter, t: Time): Result {
    var now := EffectiveTime(l, t);
    var l1 := Prune(l, now);
    var r := Request(StartTime(l1, now), None);
    Result(Granting(l1, r).(lastTime := Some(now)), Some(r))
  }

  function Do(l: Limiter, op: Op): Result {
    match op
    case ReserveGroup(t, count) => DoReserveGroup(l, t, count)
    case RemoveGroup(id) => Result(l.(groups := Without(l.groups, id)), None)
    case Instant(t) => DoInstant(l, t)
    case GroupInstant(t, id) =>
      (match FindGroup(l.groups, id)
       case None => DoInstant(l, t)
       case Some(g) => DoGroupInstant(l, t, g))
    case Schedule(t) => DoSchedule(l, t)
  }

  // ---- counts and changes ----

  lemma {:induction false} CountSame(requests: seq<Request>, f: Request -> bool, g: Request -> bool)
    requires forall r :: r in requests ==> f(r) == g(r)
    ensures Count(requests, f) == Count(requests, g)
    decreases |requests|
  {
    if requests != [] {
      CountSame(requests[..|requests| - 1], f, g);
    }
  }

  lemma {:induction false} CountLess(requests: seq<Request>, f: Request -> bool, g: Request -> bool)
    requires forall r :: r in requests && f(r) ==> g(r)
    ensures Count(requests, f) <= Count(requests, g)
    decreases |requests|
  {
    if requests != [] {
      CountLess(requests[..|requests| - 1], f, g);
    }
  }

  lemma {:induction false} CountSplit(requests: seq<Request>, f: Request -> bool, g: Request -> bool,
                                      h: Request -> bool)
    requires forall r :: r in requests && f(r) ==> g(r) || h(r)
    ensures Count(requests, f) <= Count(requests, g) + Count(requests, h)
    decreases |requests|
  {
    if requests != [] {
      CountSplit(requests[..|requests| - 1], f, g, h);
    }
  }

  lemma {:induction false} CountNone(requests: seq<Request>, f: Request -> bool)
    requires forall r :: r in requests ==> !f(r)
    ensures Count(requests, f) == 0
    decreases |requests|
  {
    if requests != [] {
      CountNone(requests[..|requests| - 1], f);
    }
  }

  lemma CountAdd(requests: seq<Request>, r: Request, f: Request -> bool)
    ensures Count(requests + [r], f) == Count(requests, f) + if f(r) then 1 else 0
  {
    assert (requests + [r])[..|requests|] == requests;
  }

  /** Pruning does not touch the counts of later requests. */
  lemma {:induction false} CountKept(requests: seq<Request>, deadline: Time, f: Request -> bool)
    requires forall r :: f(r) ==> r.time >= deadline
    ensures Count(Kept(requests, deadline), f) == Count(requests, f)
    decreases |requests|
  {
    if requests != [] {
      var n := |requests| - 1;
      CountKept(requests[..n], deadline, f);
      if requests[n].time >= deadline {
        CountAdd(Kept(requests[..n], deadline), requests[n], f);
      } else {
        assert Kept(requests, deadline) == Kept(requests[..n], deadline);
      }
    }
  }

  // ---- loads and changes ----

  predicate UniqueIds(groups: seq<Group>) {
    forall i, j :: 0 <= i < j < |groups| ==> groups[i].id != groups[j].id
  }

  lemma LastUnique(groups: seq<Group>)
    requires groups != [] && UniqueIds(groups)
    ensures var n := |groups| - 1; UniqueIds(groups[..n]) && groups[n].id !in Live(groups[..n])
  {
  }

  lemma LiveLast(groups: seq<Group>)
    requires groups != []
    ensures Live(groups) == Live(groups[..|groups| - 1]) + {groups[|groups| - 1].id}
  {
    var n := |groups| - 1;
    assert groups == groups[..n] + [groups[n]];
  }

  lemma {:induction false} GroupLoadFalls(before: seq<Request>, f: Request -> bool, after: seq<Request>,
                                          g: Request -> bool, groups: seq<Group>)
    requires forall id :: Count(after, InGroup(g, id)) <= Count(before, InGroup(f, id))
    ensures GroupLoad(after, g, groups) <= GroupLoad(before, f, groups)
    decreases |groups|
  {
    if groups != [] {
      GroupLoadFalls(before, f, after, g, groups[..|groups| - 1]);
    }
  }

  /** Selecting fewer of the stored requests takes up no more. */
  lemma LoadLess(l: Limiter, f: Request -> bool, g: Request -> bool)
    requires forall r :: r in l.requests && f(r) ==> g(r)
    ensures Load(l, f) <= Load(l, g)
  {
    CountLess(l.requests, Outside(f, Live(l.groups)), Outside(g, Live(l.groups)));
    forall id ensures Count(l.requests, InGroup(f, id)) <= Count(l.requests, InGroup(g, id)) {
      CountLess(l.requests, InGroup(f, id), InGroup(g, id));
    }
    GroupLoadFalls(l.requests, g, l.requests, f, l.groups);
  }

  lemma LoadKept(l: Limiter, now: Time, f: Request -> bool)
    requires forall r :: f(r) ==> r.time >= now - l.period
    ensures Load(Prune(l, now), f) == Load(l, f)
  {
    var deadline, kept := now - l.period, Kept(l.requests, now - l.period);
    CountKept(l.requests, deadline, Outside(f, Live(l.groups)));
    forall id ensures Count(kept, InGroup(f, id)) == Count(l.requests, InGroup(f, id)) {
      CountKept(l.requests, deadline, InGroup(f, id));
    }
    GroupLoadFalls(l.requests, f, kept, f, l.groups);
    GroupLoadFalls(kept, f, l.requests, f, l.groups);
  }

  lemma {:induction false} GroupLoadReserved(requests: seq<Request>, f: Request -> bool, groups: seq<Group>)
    ensures Reserved(groups) <= GroupLoad(requests, f, groups)
    ensures (forall r :: r in requests ==> !f(r)) ==> Reserved(groups) == GroupLoad(requests, f, groups)
    decreases |groups|
  {
    if groups != [] {
      var n := |groups| - 1;
      GroupLoadReserved(requests, f, groups[..n]);
      if forall r :: r in requests ==> !f(r) {
        CountNone(requests, InGroup(f, groups[n].id));
      }
    }
  }

  /** Where no request is stored, only what groups have reserved is taken up. */
  lemma EmptyLoad(l: Limiter, f: Request -> bool)
    requires forall r :: r in l.requests ==> !f(r)
    ensures Load(l, f) == Reserved(l.groups)
  {
    CountNone(l.requests, Outside(f, Live(l.groups)));
    GroupLoadReserved(l.requests, f, l.groups);
  }

  lemma {:induction false} GroupLoadSame(requests: seq<Request>, r: Request, f: Request -> bool, groups: seq<Group>)
    requires !f(r) || r.group.None? || r.group.value !in Live(groups)
    ensures GroupLoad(requests + [r], f, groups) == GroupLoad(requests, f, groups)
    decreases |groups|
  {
    if groups != [] {
      var n := |groups| - 1;
      LiveLast(groups);
      GroupLoadSame(requests, r, f, groups[..n]);
      CountAdd(requests, r, InGroup(f, groups[n].id));
    }
  }

  lemma {:induction false} FoundIsLive(groups: seq<Group>, id: GroupId)
    ensures FindGroup(groups, id).Some? ==> FindGroup(groups, id).value.id == id && id in Live(groups)
    decreases |groups|
  {
    if groups != [] {
      LiveLast(groups);
      FoundIsLive(groups[..|groups| - 1], id);
    }
  }

  /** One more request of a group raises its load by one, unless it has reserved requests left. */
  lemma {:induction false} GroupLoadRises(requests: seq<Request>, r: Request, f: Request -> bool, groups: seq<Group>,
                                          g: Group)
    requires UniqueIds(groups) && FindGroup(groups, g.id) == Some(g) && r.group == Some(g.id) && f(r)
    ensures GroupLoad(requests + [r], f, groups) ==
            GroupLoad(requests, f, groups) + if Count(requests, InGroup(f, g.id)) < g.reserved then 0 else 1
    decreases |groups|
  {
    var n := |groups| - 1;
    LastUnique(groups);
    CountAdd(requests, r, InGroup(f, groups[n].id));
    if groups[n].id == g.id {
      GroupLoadSame(requests, r, f, groups[..n]);
    } else {
      GroupLoadRises(requests, r, f, groups[..n], g);
    }
  }

  /** A request outside groups takes up one where it is selected. */
  lemma GrantOutside(l: Limiter, r: Request, f: Request -> bool)
    requires r.group.None?
    ensures Load(Granting(l, r), f) == Load(l, f) + if f(r) then 1 else 0
  {
    GroupLoadSame(l.requests, r, f, l.groups);
    CountAdd(l.requests, r, Outside(f, Live(l.groups)));
  }

  /** A request of a group takes up one where it is selected, unless the group has reserved it. */
  lemma GrantInside(l: Limiter, r: Request, f: Request -> bool, g: Group)
    requires UniqueIds(l.groups) && FindGroup(l.groups, g.id) == Some(g) && r.group == Some(g.id)
    ensures Load(Granting(l, r), f) ==
            Load(l, f) + if f(r) && Count(l.requests, InGroup(f, g.id)) >= g.reserved then 1 else 0
  {
    FoundIsLive(l.groups, g.id);
    if f(r) {
      GroupLoadRises(l.requests, r, f, l.groups, g);
    } else {
      GroupLoadSame(l.requests, r, f, l.groups);
    }
    CountAdd(l.requests, r, Outside(f, Live(l.groups)));
  }

  // ---- what the limiter keeps ----

  ghost function LoadAt(l: Limiter, to: Time): nat {
    Load(l, Window(to, l.period))
  }

  /** Ids are in order, and only requests outside groups lie ahead of the clock. */
  ghost predicate Ordered(l: Limiter, clock: Time) {
    && (forall r :: r in l.requests && r.group.Some? ==> r.time <= clock && r.group.value < l.nextGroup)
    && (forall g :: g in l.groups ==> g.id < l.nextGroup) && UniqueIds(l.groups)
    && (l.lastTime.Some? ==> l.lastTime.value <= clock)
  }

  /** In every window of one period that is not over yet, what is used, scheduled or reserved is within the
      limit. */
  ghost predicate Within(l: Limiter, clock: Time) {
    Ordered(l, clock) && forall to :: clock <= to ==> LoadAt(l, to) <= l.limit
  }

  /** As time goes on and old requests are forgotten, nothing changes in the windows that count. */
  lemma PruneKeepsWithin(l: Limiter, clock: Time, now: Time)
    requires Within(l, clock) && clock <= now
    ensures Within(Prune(l, now), now)
    ensures forall to :: now <= to ==> LoadAt(Prune(l, now), to) == LoadAt(l, to)
  {
    forall to | now <= to ensures LoadAt(Prune(l, now), to) == LoadAt(l, to) <= l.limit {
      LoadKept(l, now, Window(to, l.period));
    }
  }

  /** What the code counts at present is what the window that ends now holds. */
  lemma PresentLoad(l: Limiter, now: Time)
    ensures Load(Prune(l, now), UpTo(now)) == LoadAt(Prune(l, now), now)
  {
    var l1 := Prune(l, now);
    LoadLess(l1, UpTo(now), Window(now, l.period));
    LoadLess(l1, Window(now, l.period), UpTo(now));
  }

  // ---- when each call keeps it ----

  /** Every window the moment lies in has a request free. */
  ghost predicate HasRoom(l: Limiter, now: Time) {
    forall to :: now <= to <= now + l.period ==> LoadAt(l, to) < l.limit
  }

  /** Every window the moment lies in has a request free or reserved for the group. */
  ghost predicate HasRoomFor(l: Limiter, now: Time, g: Group) {
    forall to :: now <= to <= now + l.period ==>
      LoadAt(l, to) < l.limit || Count(l.requests, InGroup(Window(to, l.period), g.id)) < g.reserved
  }

  ghost predicate HasRoomOf(l: Limiter, now: Time, count: nat) {
    forall to :: now <= to ==> LoadAt(l, to) + count <= l.limit
  }

  /** What the limiter looks like to the call. */
  function Seen(l: Limiter, t: Time): Limiter {
    Prune(l, EffectiveTime(l, t))
  }

  ghost predicate InstantSafe(l: Limiter, t: Time) {
    Available(Seen(l, t), UpTo(EffectiveTime(l, t))) > 0 ==> HasRoom(Seen(l, t), EffectiveTime(l, t))
  }

  /** What keeps the limit, to be looked up before the call: whatever it grants fits into every window, also
      those that end later; and what is scheduled is not reserved for groups. */
  ghost predicate Safe(l: Limiter, op: Op) {
    match op
    case ReserveGroup(t, count) =>
      Available(Seen(l, t), UpTo(EffectiveTime(l, t))) >= count ==> HasRoomOf(Seen(l, t), EffectiveTime(l, t), count)
    case RemoveGroup(_) => true
    case Instant(t) => InstantSafe(l, t)
    case GroupInstant(t, id) =>
      (match FindGroup(l.groups, id)
       case None => InstantSafe(l, t)
       case Some(g) =>
         var l1, now := Seen(l, t), EffectiveTime(l, t);
         Available(l1, UpTo(now)) + Rest(l1, now, g) > 0 ==> HasRoomFor(l1, now, g))
    case Schedule(_) => Reserved(l.groups) < l.limit
  }

  lemma GrantKeepsOrder(l: Limiter, r: Request, now: Time)
    requires Ordered(l, now) && (r.group.Some? ==> r.time <= now && r.group.value < l.nextGroup)
    ensures Ordered(Granting(l, r), now)
  {
  }

  lemma NotingTime(l: Limiter, now: Time)
    requires Ordered(l, now)
    ensures Within(l.(lastTime := Some(now)), now) <==> Within(l, now)
  {
    forall to ensures LoadAt(l.(lastTime := Some(now)), to) == LoadAt(l, to) {
    }
  }

  /** A request outside groups, now or later, keeps the limit exactly when it has room. */
  lemma GrantedOutsideIff(l: Limiter, r: Request, now: Time)
    requires Within(l, now) && r.group.None? && now <= r.time
    ensures Within(Granting(l, r).(lastTime := Some(now)), now) <==> HasRoom(l, r.time)
  {
    var l' := Granting(l, r);
    GrantKeepsOrder(l, r, now);
    NotingTime(l', now);
    forall to ensures LoadAt(l', to) == LoadAt(l, to) + if r.time <= to <= r.time + l.period then 1 else 0 {
      GrantOutside(l, r, Window(to, l.period));
    }
  }

  lemma GrantedInsideIff(l: Limiter, now: Time, g: Group)
    requires Within(l, now) && FindGroup(l.groups, g.id) == Some(g)
    ensures Within(Granting(l, Request(now, Some(g.id))), now) <==> HasRoomFor(l, now, g)
  {
    var r := Request(now, Some(g.id));
    var l' := Granting(l, r);
    FoundIsLive(l.groups, g.id);
    GrantKeepsOrder(l, r, now);
    forall to
      ensures LoadAt(l', to) == LoadAt(l, to) +
              if now <= to <= now + l.period && Count(l.requests, InGroup(Window(to, l.period), g.id)) >= g.reserved
              then 1 else 0
    {
      GrantInside(l, r, Window(to, l.period), g);
    }
  }

  lemma ReservingKeepsOrder(l: Limiter, now: Time, count: nat)
    requires Ordered(l, now)
    ensures Ordered(Reserving(l, count), now)
  {
  }

  /** A new group takes up what it reserves, in every window. */
  lemma ReservingLoads(l: Limiter, now: Time, count: nat, f: Request -> bool)
    requires Ordered(l, now)
    ensures Load(Reserving(l, count), f) == Load(l, f) + count
  {
    var g := Group(l.nextGroup, count);
    var groups := l.groups + [g];
    assert groups[..|l.groups|] == l.groups;
    CountNone(l.requests, InGroup(f, g.id));
    LiveLast(groups);
    CountSame(l.requests, Outside(f, Live(groups)), Outside(f, Live(l.groups)));
  }

  lemma ReservedIff(l: Limiter, now: Time, count: nat)
    requires Within(l, now)
    ensures Within(Reserving(l, count).(lastTime := Some(now)), now) <==> HasRoomOf(l, now, count)
  {
    var l' := Reserving(l, count);
    ReservingKeepsOrder(l, now, count);
    NotingTime(l', now);
    forall to ensures LoadAt(l', to) == LoadAt(l, to) + count {
      ReservingLoads(l, now, count, Window(to, l.period));
    }
  }

  /** A scheduled request finds room exactly when the groups do not hold the whole limit. */
  lemma ScheduledRoomIff(l: Limiter, now: Time)
    ensures HasRoom(l, StartTime(l, now)) <==> Reserved(l.groups) < l.limit
  {
    var start := StartTime(l, now);
    GroupLoadReserved(l.requests, Window(start, l.period), l.groups);
    assert LoadAt(l, start) >= Reserved(l.groups);
    if Reserved(l.groups) < l.limit {
      forall to | start <= to <= start + l.period ensures LoadAt(l, to) < l.limit {
        ScheduledRoom(l, now, to);
      }
    }
  }

  lemma ScheduledRoom(l: Limiter, now: Time, to: Time)
    requires Reserved(l.groups) < l.limit && StartTime(l, now) <= to
    ensures LoadAt(l, to) < l.limit
  {
    if l.requests == [] {
      EmptyLoad(l, Window(to, l.period));
    } else {
      var latest := Latest(l.requests);
      if Available(l, From(latest - l.period)) == 0 {
        EmptyLoad(l, Window(to, l.period));
      } else {
        LoadLess(l, Window(to, l.period), From(latest - l.period));
      }
    }
  }

  // ---- removing a group ----

  lemma {:induction false} WithoutIs(groups: seq<Group>, id: GroupId)
    requires UniqueIds(groups)
    ensures Live(Without(groups, id)) == Live(groups) - {id} && UniqueIds(Without(groups, id))
    ensures forall g :: g in Without(groups, id) ==> g in groups
    decreases |groups|
  {
    if groups != [] {
      var n := |groups| - 1;
      assert groups == groups[..n] + [groups[n]];
      LastUnique(groups);
      WithoutIs(groups[..n], id);
      assert Live(groups) == Live(groups[..n]) + {groups[n].id};
      if groups[n].id != id {
        var rest := Without(groups[..n], id);
        assert Live(rest + [groups[n]]) == Live(rest) + {groups[n].id};
        var all := rest + [groups[n]];
        forall i, j | 0 <= i < j < |all| ensures all[i].id != all[j].id {
          assert rest[i] in rest;
        }
      }
    }
  }

  /** The load of a group that is removed was at least what it had used. */
  lemma {:induction false} LoadWithout(requests: seq<Request>, f: Request -> bool, groups: seq<Group>, id: GroupId)
    requires UniqueIds(groups)
    ensures id in Live(groups) ==>
              GroupLoad(requests, f, Without(groups, id)) + Count(requests, InGroup(f, id))
                  <= GroupLoad(requests, f, groups)
    ensures id !in Live(groups) ==> Without(groups, id) == groups
    decreases |groups|
  {
    if groups != [] {
      var n := |groups| - 1;
      assert groups == groups[..n] + [groups[n]];
      LastUnique(groups);
      LiveLast(groups);
      LoadWithout(requests, f, groups[..n], id);
      if groups[n].id != id {
        GroupLoadLast(requests, f, Without(groups[..n], id), groups[n]);
      }
    }
  }

  lemma GroupLoadLast(requests: seq<Request>, f: Request -> bool, groups: seq<Group>, g: Group)
    ensures GroupLoad(requests, f, groups + [g]) == GroupLoad(requests, f, groups) + Max(g.reserved,
            Count(requests, InGroup(f, g.id)))
  {
    assert (groups + [g])[..|groups|] == groups;
  }

  lemma LoadAfterRemoval(l: Limiter, id: GroupId, f: Request -> bool)
    requires UniqueIds(l.groups)
    ensures Load(l.(groups := Without(l.groups, id)), f) <= Load(l, f)
  {
    var live := Live(l.groups);
    WithoutIs(l.groups, id);
    LoadWithout(l.requests, f, l.groups, id);
    if id in live {
      CountSplit(l.requests, Outside(f, live - {id}), Outside(f, live), InGroup(f, id));
    } else {
      assert live - {id} == live;
    }
  }

  /** The requests of a removed group stay counted; what it had reserved beyond them is free again. */
  lemma RemoveKeepsWithin(l: Limiter, clock: Time, id: GroupId)
    requires Within(l, clock)
    ensures Within(l.(groups := Without(l.groups, id)), clock)
  {
    var l' := l.(groups := Without(l.groups, id));
    WithoutIs(l.groups, id);
    forall to | clock <= to ensures LoadAt(l', to) <= l'.limit {
      assert LoadAt(l, to) <= l.limit;
      LoadAfterRemoval(l, id, Window(to, l.period));
    }
  }

  // ---- one call ----

  /** The time a call works with: its own or, if that is later, the last one noted. */
  function ClockAfter(l: Limiter, op: Op, clock: Time): Time {
    if op.RemoveGroup? then clock else EffectiveTime(l, op.time)
  }

  /** The call does not work with a time before the one of the call before it. */
  predicate OnTime(l: Limiter, op: Op, clock: Time) {
    clock <= ClockAfter(l, op, clock)
  }

  lemma InstantKeepsIff(l: Limiter, clock: Time, t: Time)
    requires Within(l, clock) && clock <= EffectiveTime(l, t)
    ensures Within(DoInstant(l, t).limiter, EffectiveTime(l, t)) <==> InstantSafe(l, t)
  {
    var now := EffectiveTime(l, t);
    PruneKeepsWithin(l, clock, now);
    GrantedOutsideIff(Seen(l, t), Request(now, None), now);
  }

  lemma ScheduleKeepsIff(l: Limiter, clock: Time, t: Time)
    requires Within(l, clock) && clock <= EffectiveTime(l, t)
    ensures Within(DoSchedule(l, t).limiter, EffectiveTime(l, t)) <==> Reserved(l.groups) < l.limit
  {
    var now := EffectiveTime(l, t);
    PruneKeepsWithin(l, clock, now);
    GrantedOutsideIff(Seen(l, t), Request(StartTime(Seen(l, t), now), None), now);
    ScheduledRoomIff(Seen(l, t), now);
  }

  lemma GroupInstantKeepsIff(l: Limiter, clock: Time, t: Time, g: Group)
    requires Within(l, clock) && clock <= EffectiveTime(l, t) && FindGroup(l.groups, g.id) == Some(g)
    ensures Within(DoGroupInstant(l, t, g).limiter, EffectiveTime(l, t)) <==>
            (Available(Seen(l, t), UpTo(EffectiveTime(l, t))) + Rest(Seen(l, t), EffectiveTime(l, t), g) > 0 ==>
               HasRoomFor(Seen(l, t), EffectiveTime(l, t), g))
  {
    var now := EffectiveTime(l, t);
    PruneKeepsWithin(l, clock, now);
    GrantedInsideIff(Seen(l, t), now, g);
  }

  lemma ReserveKeepsIff(l: Limiter, clock: Time, t: Time, count: nat)
    requires Within(l, clock) && clock <= EffectiveTime(l, t)
    ensures Within(DoReserveGroup(l, t, count).limiter, EffectiveTime(l, t)) <==> Safe(l, ReserveGroup(t, count))
  {
    var now := EffectiveTime(l, t);
    PruneKeepsWithin(l, clock, now);
    ReservedIff(Seen(l, t), now, count);
  }

  /** A call on time keeps every window within the limit if and only if it is safe. */
  lemma DoKeepsWithinIff(l: Limiter, op: Op, clock: Time)
    requires Within(l, clock) && OnTime(l, op, clock)
    ensures Within(Do(l, op).limiter, ClockAfter(l, op, clock)) <==> Safe(l, op)
  {
    match op
    case ReserveGroup(t, count) => ReserveKeepsIff(l, clock, t, count);
    case RemoveGroup(id) => RemoveKeepsWithin(l, clock, id);
    case Instant(t) => InstantKeepsIff(l, clock, t);
    case GroupInstant(t, id) =>
      if FindGroup(l.groups, id).Some? {
        FoundIsLive(l.groups, id);
        GroupInstantKeepsIff(l, clock, t, FindGroup(l.groups, id).value);
      } else {
        InstantKeepsIff(l, clock, t);
      }
    case Schedule(t) => ScheduleKeepsIff(l, clock, t);
  }

  // ---- what makes calls safe ----

  /** No request is scheduled for later. */
  predicate NothingAhead(l: Limiter, now: Time) {
    forall r :: r in l.requests ==> r.time <= now
  }

  lemma LaterIsLess(l: Limiter, now: Time, to: Time)
    requires NothingAhead(l, now) && now <= to
    ensures LoadAt(l, to) <= LoadAt(l, now)
  {
    LoadLess(l, Window(to, l.period), Window(now, l.period));
  }

  /** A call that takes a request no group has reserved comes when nothing is scheduled for later; a request is
      scheduled when the groups do not hold the whole limit. */
  predicate Uncrowded(l: Limiter, op: Op) {
    match op
    case RemoveGroup(_) => true
    case Schedule(_) => Reserved(l.groups) < l.limit
    case GroupInstant(t, id) =>
      var g, now := FindGroup(l.groups, id), EffectiveTime(l, t);
      NothingAhead(l, now) || (g.Some? && Rest(Seen(l, t), now, g.value) > 0)
    case _ => NothingAhead(l, EffectiveTime(l, op.time))
  }

  lemma SeenAhead(l: Limiter, t: Time)
    requires NothingAhead(l, EffectiveTime(l, t))
    ensures NothingAhead(Seen(l, t), EffectiveTime(l, t))
    ensures forall to :: EffectiveTime(l, t) <= to ==>
              LoadAt(Seen(l, t), to) <= Load(Seen(l, t), UpTo(EffectiveTime(l, t)))
  {
    var l1, now := Seen(l, t), EffectiveTime(l, t);
    PresentLoad(l, now);
    forall to | now <= to ensures LoadAt(l1, to) <= Load(l1, UpTo(now)) {
      LaterIsLess(l1, now, to);
    }
  }

  /** What a group has left at present it has left in every later window. */
  lemma RestStays(l: Limiter, now: Time, g: Group)
    requires Ordered(l, now) && Rest(l, now, g) > 0
    ensures HasRoomFor(l, now, g)
  {
    forall to | now <= to <= now + l.period
      ensures Count(l.requests, InGroup(Window(to, l.period), g.id)) < g.reserved
    {
      CountLess(l.requests, InGroup(Window(to, l.period), g.id), InGroup(UpTo(now), g.id));
    }
  }

  lemma UncrowdedIsSafe(l: Limiter, op: Op, clock: Time)
    requires Within(l, clock) && OnTime(l, op, clock) && Uncrowded(l, op)
    ensures Safe(l, op)
  {
    if !op.RemoveGroup? && !op.Schedule? {
      var now := EffectiveTime(l, op.time);
      PruneKeepsWithin(l, clock, now);
      if NothingAhead(l, now) {
        SeenAhead(l, op.time);
      }
      if op.GroupInstant? && FindGroup(l.groups, op.id).Some? {
        var g := FindGroup(l.groups, op.id).value;
        if Rest(Seen(l, op.time), now, g) > 0 {
          RestStays(Seen(l, op.time), now, g);
        }
      }
    }
  }

  // ---- runs ----

  /** A run: the limiter, everything granted so far, and the time the last call worked with. */
  datatype Trace = Trace(limiter: Limiter, granted: seq<Request>, clock: Time)

  function Next(t: Trace, op: Op): Trace {
    var r := Do(t.limiter, op);
    Trace(r.limiter, if r.granted.Some? then t.granted + [r.granted.value] else t.granted,
          ClockAfter(t.limiter, op, t.clock))
  }

  function Run(limit: nat, period: nat, ops: seq<Op>, start: Time): Trace {
    if ops == [] then Trace(Fresh(limit, period), [], start)
    else Next(Run(limit, period, ops[..|ops| - 1], start), ops[|ops| - 1])
  }

  /** Every call of the run is good for the limiter it meets. */
  ghost predicate Always(limit: nat, period: nat, ops: seq<Op>, start: Time, good: (Trace, Op) -> bool) {
    ops == [] ||
    (Always(limit, period, ops[..|ops| - 1], start, good) &&
     good(Run(limit, period, ops[..|ops| - 1], start), ops[|ops| - 1]))
  }

  ghost predicate OnTimeAndSafe(t: Trace, op: Op) {
    OnTime(t.limiter, op, t.clock) && Safe(t.limiter, op)
  }

  lemma DoKeepsSettings(l: Limiter, op: Op)
    ensures Do(l, op).limiter.limit == l.limit && Do(l, op).limiter.period == l.period
  {
  }

  lemma {:induction false} RunKeepsSettings(limit: nat, period: nat, ops: seq<Op>, start: Time)
    ensures var t := Run(limit, period, ops, start);
            t.limiter.limit == limit && t.limiter.period == period
    decreases |ops|
  {
    if ops != [] {
      var earlier := ops[..|ops| - 1];
      RunKeepsSettings(limit, period, earlier, start);
      DoKeepsSettings(Run(limit, period, earlier, start).limiter, ops[|ops| - 1]);
    }
  }

  /** In the windows that are not over yet the stored requests are those that were granted, and no window of
      one period holds more than the limit. */
  ghost predicate TraceOk(t: Trace) {
    && Within(t.limiter, t.clock)
    && RecentStored(t.granted, t.limiter.requests, t.clock, t.limiter.period)
    && WindowsOk(t.granted, t.limiter.period, t.limiter.limit)
  }

  ghost predicate RecentStored(granted: seq<Request>, stored: seq<Request>, clock: Time, period: nat) {
    forall to :: clock <= to ==> Count(granted, Window(to, period)) == Count(stored, Window(to, period))
  }

  ghost predicate WindowsOk(granted: seq<Request>, period: nat, limit: nat) {
    forall to :: Count(granted, Window(to, period)) <= limit
  }

  lemma {:induction false} InGroups(requests: seq<Request>, f: Request -> bool, groups: seq<Group>)
    requires UniqueIds(groups)
    ensures Count(requests, (r: Request) => f(r) && r.group.Some? && r.group.value in Live(groups))
            <= GroupLoad(requests, f, groups)
    decreases |groups|
  {
    var h := (r: Request) => f(r) && r.group.Some? && r.group.value in Live(groups);
    if groups == [] {
      CountNone(requests, h);
    } else {
      var n := |groups| - 1;
      LiveLast(groups);
      LastUnique(groups);
      InGroups(requests, f, groups[..n]);
      CountSplit(requests, h, (r: Request) => f(r) && r.group.Some? && r.group.value in Live(groups[..n]),
                 InGroup(f, groups[n].id));
    }
  }

  /** The requests selected are within the load. */
  lemma StoredWithinLoad(l: Limiter, f: Request -> bool)
    requires UniqueIds(l.groups)
    ensures Count(l.requests, f) <= Load(l, f)
  {
    var live := Live(l.groups);
    InGroups(l.requests, f, l.groups);
    CountSplit(l.requests, f, Outside(f, live), (r: Request) => f(r) && r.group.Some? && r.group.value in live);
  }

  /** What a call does to the stored requests: old ones are dropped and the granted one is added. */
  ghost predicate Stores(l: Limiter, r: Result, now: Time) {
    && r.limiter.requests == Kept(l.requests, now - l.period) + (if r.granted.Some? then [r.granted.value] else [])
    && (r.granted.Some? ==> r.granted.value.time >= now)
  }

  lemma DoStores(l: Limiter, op: Op)
    requires !op.RemoveGroup?
    ensures Stores(l, Do(l, op), EffectiveTime(l, op.time))
  {
  }

  lemma RecentKept(granted: seq<Request>, stored: seq<Request>, clock: Time, now: Time, period: nat)
    requires RecentStored(granted, stored, clock, period) && clock <= now
    ensures RecentStored(granted, Kept(stored, now - period), now, period)
  {
    forall to | now <= to ensures Count(granted, Window(to, period)) ==
        Count(Kept(stored, now - period), Window(to, period)) {
      CountKept(stored, now - period, Window(to, period));
    }
  }

  lemma RecentGrant(granted: seq<Request>, stored: seq<Request>, now: Time, period: nat, r: Request)
    requires RecentStored(granted, stored, now, period)
    ensures RecentStored(granted + [r], stored + [r], now, period)
  {
    forall to | now <= to ensures Count(granted + [r], Window(to, period)) == Count(stored + [r],
        Window(to, period)) {
      CountAdd(granted, r, Window(to, period));
      CountAdd(stored, r, Window(to, period));
    }
  }

  /** A request granted from now on fits into every window if the stored ones do. */
  lemma WindowsGrant(granted: seq<Request>, l: Limiter, now: Time, r: Request)
    requires WindowsOk(granted, l.period, l.limit) && now <= r.time && Within(l, now)
    requires RecentStored(granted + [r], l.requests, now, l.period)
    ensures WindowsOk(granted + [r], l.period, l.limit)
  {
    forall to ensures Count(granted + [r], Window(to, l.period)) <= l.limit {
      if to < now {
        CountAdd(granted, r, Window(to, l.period));
      } else {
        assert LoadAt(l, to) <= l.limit;
        StoredWithinLoad(l, Window(to, l.period));
      }
    }
  }

  /** Whatever call it was: old requests are dropped, and one granted is added. */
  lemma StoringKeeps(t: Trace, r: Result, now: Time)
    requires TraceOk(t) && t.clock <= now && Within(r.limiter, now) && Stores(t.limiter, r, now)
    requires r.limiter.limit == t.limiter.limit && r.limiter.period == t.limiter.period
    ensures TraceOk(Trace(r.limiter, if r.granted.Some? then t.granted + [r.granted.value] else t.granted, now))
  {
    var period := t.limiter.period;
    var kept := Kept(t.limiter.requests, now - period);
    RecentKept(t.granted, t.limiter.requests, t.clock, now, period);
    if r.granted.Some? {
      RecentGrant(t.granted, kept, now, period, r.granted.value);
      WindowsGrant(t.granted, r.limiter, now, r.granted.value);
    } else {
      assert r.limiter.requests == kept;
    }
  }

  lemma NextKeeps(t: Trace, op: Op)
    requires TraceOk(t) && OnTimeAndSafe(t, op)
    ensures TraceOk(Next(t, op))
  {
    var r := Do(t.limiter, op);
    assert Within(r.limiter, ClockAfter(t.limiter, op, t.clock)) by {
      DoKeepsWithinIff(t.limiter, op, t.clock);
    }
    DoKeepsSettings(t.limiter, op);
    if !op.RemoveGroup? {
      var now := EffectiveTime(t.limiter, op.time);
      assert Stores(t.limiter, r, now) by {
        DoStores(t.limiter, op);
      }
      StoringKeeps(t, r, now);
    }
  }

  lemma EmptyTraceOk(limit: nat, period: nat, start: Time)
    ensures TraceOk(Trace(Fresh(limit, period), [], start))
  {
  }

  lemma {:induction false} SafeRunIsOk(limit: nat, period: nat, ops: seq<Op>, start: Time)
    requires Always(limit, period, ops, start, OnTimeAndSafe)
    ensures TraceOk(Run(limit, period, ops, start))
    decreases |ops|
  {
    if ops == [] {
      EmptyTraceOk(limit, period, start);
    } else {
      var n := |ops| - 1;
      SafeRunIsOk(limit, period, ops[..n], start);
      NextKeeps(Run(limit, period, ops[..n], start), ops[n]);
    }
  }

  /** No window of one period holds more granted requests than the limit, and what is used, scheduled and
      reserved together stays within it in every window that is not over. */
  ghost predicate KeepsLimit(limit: nat, period: nat, ops: seq<Op>, start: Time) {
    var t := Run(limit, period, ops, start);
    && (forall to :: Count(t.granted, Window(to, period)) <= limit)
    && (forall to :: t.clock <= to ==> LoadAt(t.limiter, to) <= limit)
  }

  /** The limit holds in every run of calls on time that are safe, scheduled requests included. */
  lemma NoPeriodExceedsLimit(limit: nat, period: nat, ops: seq<Op>, start: Time)
    requires Always(limit, period, ops, start, OnTimeAndSafe)
    ensures KeepsLimit(limit, period, ops, start)
  {
    SafeRunIsOk(limit, period, ops, start);
    RunKeepsSettings(limit, period, ops, start);
    var t := Run(limit, period, ops, start);
    assert WindowsOk(t.granted, period, limit);
  }

  // ---- runs that are safe ----

  ghost predicate OnTimeUncrowded(t: Trace, op: Op) {
    OnTime(t.limiter, op, t.clock) && Uncrowded(t.limiter, op)
  }

  /** It is enough that calls come when nothing is scheduled for later, unless their group has reserved what
      they take, and that requests are scheduled when the groups leave one. */
  lemma {:induction false} UncrowdedRunsAreSafe(limit: nat, period: nat, ops: seq<Op>, start: Time)
    requires Always(limit, period, ops, start, OnTimeUncrowded)
    ensures Always(limit, period, ops, start, OnTimeAndSafe)
    decreases |ops|
  {
    if ops != [] {
      var last := |ops| - 1;
      UncrowdedRunsAreSafe(limit, period, ops[..last], start);
      SafeRunIsOk(limit, period, ops[..last], start);
      var t := Run(limit, period, ops[..last], start);
      UncrowdedIsSafe(t.limiter, ops[last], t.clock);
    }
  }

  lemma UncrowdedRunsKeepLimit(limit: nat, period: nat, ops: seq<Op>, start: Time)
    requires Always(limit, period, ops, start, OnTimeUncrowded)
    ensures KeepsLimit(limit, period, ops, start)
  {
    UncrowdedRunsAreSafe(limit, period, ops, start);
    NoPeriodExceedsLimit(limit, period, ops, start);
  }

  ghost predicate CallOnTime(t: Trace, op: Op) {
    OnTime(t.limiter, op, t.clock)
  }

  /** Without scheduled requests nothing ever lies ahead. */
  lemma {:induction false} InstantRunsHaveNothingAhead(limit: nat, period: nat, ops: seq<Op>, start: Time)
    requires Always(limit, period, ops, start, CallOnTime) && forall op :: op in ops ==> !op.Schedule?
    ensures var t := Run(limit, period, ops, start); NothingAhead(t.limiter, t.clock)
    decreases |ops|
  {
    if ops != [] {
      var n := |ops| - 1;
      assert ops[n] in ops;
      InstantRunsHaveNothingAhead(limit, period, ops[..n], start);
      var t := Run(limit, period, ops[..n], start);
      InstantStaysBehind(t.limiter, ops[n], t.clock);
    }
  }

  lemma InstantStaysBehind(l: Limiter, op: Op, clock: Time)
    requires NothingAhead(l, clock) && OnTime(l, op, clock) && !op.Schedule?
    ensures NothingAhead(Do(l, op).limiter, ClockAfter(l, op, clock))
  {
  }

  lemma {:induction false} InstantRunsAreUncrowded(limit: nat, period: nat, ops: seq<Op>, start: Time)
    requires Always(limit, period, ops, start, CallOnTime) && forall op :: op in ops ==> !op.Schedule?
    ensures Always(limit, period, ops, start, OnTimeUncrowded)
    decreases |ops|
  {
    if ops != [] {
      var n := |ops| - 1;
      assert ops[n] in ops;
      InstantRunsHaveNothingAhead(limit, period, ops[..n], start);
      InstantRunsAreUncrowded(limit, period, ops[..n], start);
    }
  }

  /** In runs of instant requests and groups alone, times that do not go back are enough. */
  lemma InstantRunsKeepLimit(limit: nat, period: nat, ops: seq<Op>, start: Time)
    requires Always(limit, period, ops, start, CallOnTime) && forall op :: op in ops ==> !op.Schedule?
    ensures KeepsLimit(limit, period, ops, start)
  {
    InstantRunsAreUncrowded(limit, period, ops, start);
    UncrowdedRunsKeepLimit(limit, period, ops, start);
  }

  lemma {:induction false} ScheduleRunsAreNoted(limit: nat, period: nat, ops: seq<Op>, start: Time)
    requires forall op :: op in ops ==> op.Schedule? && start <= op.time
    ensures var t := Run(limit, period, ops, start);
            && t.limiter.groups == [] && t.clock >= start
            && (t.limiter.lastTime == Some(t.clock) || t.clock == start)
    ensures limit > 0 ==> Always(limit, period, ops, start, OnTimeUncrowded)
    decreases |ops|
  {
    if ops != [] {
      assert ops[|ops| - 1] in ops;
      ScheduleRunsAreNoted(limit, period, ops[..|ops| - 1], start);
      RunKeepsSettings(limit, period, ops[..|ops| - 1], start);
    }
  }

  /** Requests that are all scheduled never exceed the limit, whatever times are given: each call notes its
      time, and a request that finds no room goes to the next period. */
  lemma ScheduleRunsKeepLimit(limit: nat, period: nat, ops: seq<Op>, start: Time)
    requires limit > 0 && forall op :: op in ops ==> op.Schedule? && start <= op.time
    ensures KeepsLimit(limit, period, ops, start)
  {
    ScheduleRunsAreNoted(limit, period, ops, start);
    UncrowdedRunsKeepLimit(limit, period, ops, start);
  }

  // ---- when calls are on time ----

  /** The times given to the calls do not go back. */
  predicate Ascending(ops: seq<Op>, start: Time) {
    forall i, j :: 0 <= i <= j < |ops| && !ops[i].RemoveGroup? && !ops[j].RemoveGroup? ==>
      start <= ops[i].time <= ops[j].time
  }

  lemma DoNotesItsTime(l: Limiter, op: Op, clock: Time)
    requires l.lastTime.Some? ==> l.lastTime.value <= clock
    ensures OnTime(l, op, clock) ==>
              var noted := Do(l, op).limiter.lastTime; noted.Some? ==> noted.value <= ClockAfter(l, op, clock)
  {
  }

  /** The clock of such a run is the time of one of its calls, or the start. */
  lemma {:induction false} AscendingClock(limit: nat, period: nat, ops: seq<Op>, start: Time)
    requires Ascending(ops, start)
    ensures var t := Run(limit, period, ops, start);
            && (t.clock == start || exists i :: 0 <= i < |ops| && !ops[i].RemoveGroup? && ops[i].time == t.clock)
            && (t.limiter.lastTime.Some? ==> t.limiter.lastTime.value <= t.clock)
    decreases |ops|
  {
    if ops != [] {
      var n := |ops| - 1;
      AscendingClock(limit, period, ops[..n], start);
      var t := Run(limit, period, ops[..n], start);
      DoNotesItsTime(t.limiter, ops[n], t.clock);
    }
  }

  /** Times given in order put every call on time. */
  lemma {:induction false} AscendingIsOnTime(limit: nat, period: nat, ops: seq<Op>, start: Time)
    requires Ascending(ops, start)
    ensures Always(limit, period, ops, start, CallOnTime)
    decreases |ops|
  {
    if ops != [] {
      AscendingIsOnTime(limit, period, ops[..|ops| - 1], start);
      AscendingClock(limit, period, ops[..|ops| - 1], start);
    }
  }

  lemma AscendingRunsKeepLimit(limit: nat, period: nat, ops: seq<Op>, start: Time)
    requires Ascending(ops, start) && forall op :: op in ops ==> !op.Schedule?
    ensures KeepsLimit(limit, period, ops, start)
  {
    AscendingIsOnTime(limit, period, ops, start);
    InstantRunsKeepLimit(limit, period, ops, start);
  }

  /** The next call may have any time at all exactly when the last one noted its own. */
  lemma AnyTimeIffNoted(l: Limiter, clock: Time)
    requires Ordered(l, clock)
    ensures (forall op :: OnTime(l, op, clock)) <==> l.lastTime == Some(clock)
  {
    if forall op :: OnTime(l, op, clock) {
      assert OnTime(l, Instant(clock - 1), clock);
    }
  }

  /** A granted request outside groups, a scheduled one and a granted group note the time, a request of a group
      and a refusal do not. */
  predicate Notes(l: Limiter, op: Op) {
    match op
    case ReserveGroup(t, count) => Available(Seen(l, t), UpTo(EffectiveTime(l, t))) >= count
    case RemoveGroup(_) => true
    case Instant(_) => Do(l, op).granted.Some?
    case GroupInstant(_, id) => FindGroup(l.groups, id).None? && Do(l, op).granted.Some?
    case Schedule(_) => true
  }

  ghost predicate CallNotes(t: Trace, op: Op) {
    Notes(t.limiter, op)
  }

  lemma NotingSetsTime(l: Limiter, op: Op)
    requires Notes(l, op) && !op.RemoveGroup?
    ensures Do(l, op).limiter.lastTime == Some(EffectiveTime(l, op.time))
  {
  }

  predicate NotBefore(ops: seq<Op>, start: Time) {
    forall i :: 0 <= i < |ops| && !ops[i].RemoveGroup? ==> start <= ops[i].time
  }

  lemma {:induction false} NotedClock(limit: nat, period: nat, ops: seq<Op>, start: Time)
    requires Always(limit, period, ops, start, CallNotes) && NotBefore(ops, start)
    ensures var t := Run(limit, period, ops, start);
            t.limiter.lastTime == Some(t.clock) || (t.limiter.lastTime == None && t.clock == start)
    decreases |ops|
  {
    if ops != [] {
      var n := |ops| - 1;
      NotedClock(limit, period, ops[..n], start);
      if !ops[n].RemoveGroup? {
        NotingSetsTime(Run(limit, period, ops[..n], start).limiter, ops[n]);
      }
    }
  }

  /** The code corrects a clock that goes back: when every call notes its time, each call is on time whatever
      times are given. */
  lemma {:induction false} NotedIsOnTime(limit: nat, period: nat, ops: seq<Op>, start: Time)
    requires Always(limit, period, ops, start, CallNotes) && NotBefore(ops, start)
    ensures Always(limit, period, ops, start, CallOnTime)
    decreases |ops|
  {
    if ops != [] {
      NotedIsOnTime(limit, period, ops[..|ops| - 1], start);
      NotedClock(limit, period, ops[..|ops| - 1], start);
    }
  }

  lemma NotedRunsKeepLimit(limit: nat, period: nat, ops: seq<Op>, start: Time)
    requires Always(limit, period, ops, start, CallNotes) && NotBefore(ops, start)
    requires forall op :: op in ops ==> !op.Schedule?
    ensures KeepsLimit(limit, period, ops, start)
  {
    NotedIsOnTime(limit, period, ops, start);
    InstantRunsKeepLimit(limit, period, ops, start);
  }
}
