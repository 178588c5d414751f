/** The request limiter in its own form: lists changed in place and counted in loops. */
module RequestLimiters {
  import opened Domain
  import opened RequestLimits

  /** Counts the requests of one group that `f` selects. */
  method CountGroup(requests: seq<Request>, f: Request -> bool, id: GroupId) returns (count: nat)
    ensures count == Count(requests, InGroup(f, id))
  {
    count := 0;
    for i := 0 to |requests|
      invariant count == Count(requests[..i], InGroup(f, id))
    {
      if f(requests[i]) && requests[i].group == Some(id) {
        count := count + 1;
      }
      assert requests[..i + 1][..i] == requests[..i];
    }
    assert requests[..|requests|] == requests;
  }

  /** Counts the requests `f` selects that no live group accounts for. */
  method CountOutside(requests: seq<Request>, f: Request -> bool, live: set<GroupId>) returns (count: nat)
    ensures count == Count(requests, Outside(f, live))
  {
    count := 0;
    for i := 0 to |requests|
      invariant count == Count(requests[..i], Outside(f, live))
    {
      if f(requests[i]) && (requests[i].group.None? || requests[i].group.value !in live) {
        count := count + 1;
      }
      assert requests[..i + 1][..i] == requests[..i];
    }
    assert requests[..|requests|] == requests;
  }

  class RequestLimiter {
    const limit: nat
    const period: nat
    var requests: seq<Request>
    var groups: seq<Group>
    var nextGroup: GroupId
    var lastTime: Option<Time>

    ghost function View(): Limiter
      reads this
    {
      Limiter(limit, period, requests, groups, nextGroup, lastTime)
    }

    constructor (limit: nat, period: nat)
      ensures View() == Limiter(limit, period, [], [], 0, None)
    {
      this.limit, this.period := limit, period;
      requests, groups, nextGroup, lastTime := [], [], 0, None;
    }

    function TimeNow(t: Time): (now: Time)
      reads this
      ensures now == EffectiveTime(View(), t)
    {
      if lastTime.Some? && lastTime.value >= t then lastTime.value else t
    }

    method RemoveOutdated(now: Time)
      modifies this`requests
      ensures View() == Prune(old(View()), now)
    {
      var kept := [];
      for i := 0 to |requests|
        invariant kept == Kept(requests[..i], now - period)
      {
        assert requests[..i + 1][..i] == requests[..i];
        if requests[i].time >= now - period {
          kept := kept + [requests[i]];
        }
      }
      assert requests[..|requests|] == requests;
      requests := kept;
    }

    /** What is used outside groups and what groups take up, among the requests `f` selects. */
    method LoadOf(f: Request -> bool) returns (load: nat)
      ensures load == Load(View(), f)
    {
      load := CountOutside(requests, f, Live(groups));
      var outside := load;
      for i := 0 to |groups|
        invariant load == outside + GroupLoad(requests, f, groups[..i])
      {
        var used := CountGroup(requests, f, groups[i].id);
        load := load + if used <= groups[i].reserved then groups[i].reserved else used;
        assert groups[..i + 1][..i] == groups[..i];
      }
      assert groups[..|groups|] == groups;
    }

    method AvailableOf(f: Request -> bool) returns (available: nat)
      ensures available == Available(View(), f)
    {
      var load := LoadOf(f);
      available := if load >= limit then 0 else limit - load;
    }

    method TryReserveGroup(t: Time, count: nat) returns (id: Option<GroupId>)
      modifies this
      ensures View() == DoReserveGroup(old(View()), t, count).limiter
      ensures var now := EffectiveTime(old(View()), t);
              id == if Available(Prune(old(View()), now), UpTo(now)) < count then None else Some(old(nextGroup))
    {
      var now := TimeNow(t);
      RemoveOutdated(now);
      var available := AvailableOf(UpTo(now));
      if available < count {
        return None;
      }
      id := Some(nextGroup);
      groups := groups + [Group(nextGroup, count)];
      nextGroup := nextGroup + 1;
      lastTime := Some(now);
    }

    method TryReserveRequestInstant(t: Time) returns (granted: bool)
      modifies this
      ensures View() == DoInstant(old(View()), t).limiter && granted == DoInstant(old(View()), t).granted.Some?
    {
      var now := TimeNow(t);
      RemoveOutdated(now);
      var available := AvailableOf(UpTo(now));
      if available == 0 {
        return false;
      }
      requests := requests + [Request(now, None)];
      lastTime := Some(now);
      return true;
    }

    method TryReserveGroupInstant(t: Time, id: GroupId) returns (granted: bool)
      modifies this
      ensures View() == Do(old(View()), GroupInstant(t, id)).limiter
      ensures granted == Do(old(View()), GroupInstant(t, id)).granted.Some?
    {
      var group := Find(id);
      if group.None? {
        granted := TryReserveRequestInstant(t);
        return;
      }
      granted := GrantToGroup(t, group.value);
    }

    method GrantToGroup(t: Time, group: Group) returns (granted: bool)
      modifies this
      ensures View() == DoGroupInstant(old(View()), t, group).limiter
      ensures granted == DoGroupInstant(old(View()), t, group).granted.Some?
    {
      var now := TimeNow(t);
      RemoveOutdated(now);
      var available := AvailableOf(UpTo(now));
      var used := CountGroup(requests, UpTo(now), group.id);
      var rest := if used >= group.reserved then 0 else group.reserved - used;
      if available + rest == 0 {
        return false;
      }
      requests := requests + [Request(now, Some(group.id))];
      return true;
    }

    /** The time of the latest request; the code reads it off its sorted list. */
    method LatestTime() returns (latest: Time)
      requires requests != []
      ensures latest == Latest(requests)
    {
      latest := requests[0].time;
      assert requests[..1] == [requests[0]];
      for i := 1 to |requests|
        invariant latest == Latest(requests[..i])
      {
        assert requests[..i + 1][..i] == requests[..i];
        if requests[i].time > latest {
          latest := requests[i].time;
        }
      }
      assert requests[..|requests|] == requests;
    }

    method StartOf(now: Time) returns (start: Time)
      ensures start == StartTime(View(), now)
    {
      start := now;
      if requests != [] {
        var latest := LatestTime();
        var available := AvailableOf(From(latest - period));
        start := if available == 0 then latest + period + DELAY_TO_NEXT_PERIOD else latest;
        if start < now {
          start := now;
        }
      }
    }

    /** Schedules a request and tells for when. */
    method ReserveWhenAvailable(t: Time) returns (start: Time, delay: nat)
      modifies this
      ensures View() == DoSchedule(old(View()), t).limiter && DoSchedule(old(View()), t).granted ==
              Some(Request(start, None))
      ensures start == EffectiveTime(old(View()), t) + delay
    {
      var now := TimeNow(t);
      RemoveOutdated(now);
      start := StartOf(now);
      delay := start - now;
      requests := requests + [Request(start, None)];
      lastTime := Some(now);
    }

    method Find(id: GroupId) returns (group: Option<Group>)
      ensures group == FindGroup(groups, id)
    {
      var n := |groups|;
      assert groups[..n] == groups;
      while n > 0 && groups[n - 1].id != id
        invariant 0 <= n <= |groups| && FindGroup(groups, id) == FindGroup(groups[..n], id)
      {
        assert groups[..n][..n - 1] == groups[..n - 1];
        n := n - 1;
      }
      group := if n > 0 then Some(groups[n - 1]) else None;
    }

    method Remove(id: GroupId) returns (found: bool)
      modifies this`groups
      ensures View() == Do(old(View()), RemoveGroup(id)).limiter
      ensures found <==> exists g :: g in old(groups) && g.id == id
    {
      var n := |groups|;
      while n > 0 && groups[n - 1].id != id
        invariant 0 <= n <= |groups| && forall j :: n <= j < |groups| ==> groups[j].id != id
      {
        n := n - 1;
      }
      WithoutAt(groups, id, n);
      found := n > 0;
      if found {
        groups := groups[..n - 1] + groups[n..];
      }
    }
  }

  /** Removing the last group of an id; `n` is one past it, or 0. */
  lemma {:induction false} WithoutAt(groups: seq<Group>, id: GroupId, n: nat)
    requires n <= |groups| && (n > 0 ==> groups[n - 1].id == id) && forall j :: n <= j < |groups| ==> groups[j].id != id
    ensures Without(groups, id) == if n > 0 then groups[..n - 1] + groups[n..] else groups
    decreases |groups|
  {
    var k := |groups| - 1;
    if n < |groups| {
      assert groups == groups[..k] + [groups[k]];
      WithoutAt(groups[..k], id, n);
      if n > 0 {
        assert groups[..k][..n - 1] == groups[..n - 1] && groups[..k][n..] + [groups[k]] == groups[n..];
      }
    }
  }
}
