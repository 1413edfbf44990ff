/** The connection tests a user may run: at most a few in any minute, over whole runs. */
module RateLimit {

  const PROBES_PER_MINUTE: nat := 10

  /** The moments less than a minute before `now`. */
  function Recent(times: seq<real>, now: real): seq<real> {
    if times == [] then []
    else
      var n := |times| - 1;
      var before := Recent(times[..n], now);
      if now - times[n] < 60.0 then before + [times[n]] else before
  }

  type ProbeLog = map<string, seq<real>>

  function Of(log: ProbeLog, user: string): seq<real> {
    if user in log then log[user] else []
  }

  function Probe(log: ProbeLog, user: string, now: real): (ProbeLog, bool) {
    var recent := Recent(Of(log, user), now);
    if |recent| >= PROBES_PER_MINUTE then (log[user := recent], false) else (log[user := recent + [now]], true)
  }

  class Limiter {
    var probeLog: ProbeLog

    constructor ()
      ensures probeLog == map[]
    {
      probeLog := map[];
    }

    method ProbeAllowed(user: string, now: real) returns (allowed: bool)
      modifies this
      ensures (probeLog, allowed) == Probe(old(probeLog), user, now)
    {
      var recent := Recent(if user in probeLog then probeLog[user] else [], now);
      if |recent| >= PROBES_PER_MINUTE {
        probeLog := probeLog[user := recent];
        return false;
      }
      recent := recent + [now];
      probeLog := probeLog[user := recent];
      allowed := true;
    }
  }

  // --- runs ------------------------------------------------------------------------------

  datatype Call = Call(user: string, now: real)

  predicate Ordered(calls: seq<Call>) {
    forall i, j :: 0 <= i < j < |calls| ==> calls[i].now <= calls[j].now
  }

  function Run(calls: seq<Call>): ProbeLog {
    if calls == [] then map[]
    else Probe(Run(calls[..|calls| - 1]), calls[|calls| - 1].user, calls[|calls| - 1].now).0
  }

  /** Whether the `i`-th call of a run is let through. */
  function Verdict(calls: seq<Call>, i: nat): bool
    requires i < |calls|
  {
    Probe(Run(calls[..i]), calls[i].user, calls[i].now).1
  }

  /** When a user's calls were let through. */
  function Allowed(calls: seq<Call>, user: string): seq<real> {
    if calls == [] then []
    else
      var n := |calls| - 1;
      var before := Allowed(calls[..n], user);
      if calls[n].user == user && Verdict(calls, n) then before + [calls[n].now] else before
  }

  /** How many of the moments lie in the minute from `start` on. */
  function InMinute(times: seq<real>, start: real): nat {
    if times == [] then 0
    else InMinute(times[..|times| - 1], start) + (if start <= times[|times| - 1] < start + 60.0 then 1 else 0)
  }

  lemma {:induction false} RecentTwice(times: seq<real>, now: real, later: real)
    requires now <= later
    ensures Recent(Recent(times, now), later) == Recent(times, later)
  {
    if times != [] {
      var n := |times| - 1;
      RecentTwice(times[..n], now, later);
      var before := Recent(times[..n], now);
      if now - times[n] < 60.0 {
        assert (before + [times[n]])[..|before|] == before;
      }
    }
  }

  lemma RecentOfMore(times: seq<real>, t: real, now: real)
    ensures Recent(times + [t], now) == if now - t < 60.0 then Recent(times, now) + [t] else Recent(times, now)
  {
    assert (times + [t])[..|times|] == times;
  }

  /** The log forgets nothing that still counts: at any later moment it tells what the full
      list of allowed calls would. */
  lemma {:induction false} LogTellsAll(calls: seq<Call>, user: string, later: real)
    requires Ordered(calls) && forall i :: 0 <= i < |calls| ==> calls[i].now <= later
    ensures Recent(Of(Run(calls), user), later) == Recent(Allowed(calls, user), later)
  {
    if calls != [] {
      var n := |calls| - 1;
      var c := calls[n];
      LogTellsAll(calls[..n], user, later);
      if c.user == user {
        var log := Of(Run(calls[..n]), user);
        RecentTwice(log, c.now, later);
        RecentOfMore(Recent(log, c.now), c.now, later);
        RecentOfMore(Allowed(calls[..n], user), c.now, later);
      }
      hide Recent;
    }
  }

  /** The moments less than a minute before `now`, by their places in the list. */
  function LastMinute(times: seq<real>, now: real): set<nat> {
    set i: nat | i < |times| && now - times[i] < 60.0
  }

  lemma {:induction false} RecentCounts(times: seq<real>, now: real)
    ensures |Recent(times, now)| == |LastMinute(times, now)|
  {
    if times != [] {
      var n := |times| - 1;
      RecentCounts(times[..n], now);
      var before := LastMinute(times[..n], now);
      assert n !in before;
      assert LastMinute(times, now) == if now - times[n] < 60.0 then before + {n} else before;
    } else {
      assert LastMinute(times, now) == {};
    }
  }

  /** A call is let through exactly when fewer than ten of the user's calls were let through in
      the minute before it. */
  lemma VerdictIff(calls: seq<Call>, i: nat)
    requires Ordered(calls) && i < |calls|
    ensures Verdict(calls, i) <==> |LastMinute(Allowed(calls[..i], calls[i].user), calls[i].now)| < 10
  {
    LogTellsAll(calls[..i], calls[i].user, calls[i].now);
    RecentCounts(Allowed(calls[..i], calls[i].user), calls[i].now);
    hide Recent;
    hide Allowed;
    hide Run;
    hide LastMinute;
  }

  lemma LetThrough(calls: seq<Call>, i: nat)
    requires Ordered(calls) && i < |calls| && Verdict(calls, i)
    ensures |Recent(Allowed(calls[..i], calls[i].user), calls[i].now)| < PROBES_PER_MINUTE
  {
    VerdictIff(calls, i);
    RecentCounts(Allowed(calls[..i], calls[i].user), calls[i].now);
    hide Recent, Allowed, Verdict, LastMinute;
  }

  lemma {:induction false} MinuteIsRecent(times: seq<real>, start: real, now: real)
    requires start <= now < start + 60.0
    ensures InMinute(times, start) <= |Recent(times, now)|
  {
    if times != [] {
      MinuteIsRecent(times[..|times| - 1], start, now);
    }
  }

  /** However calls and users are interleaved, no minute holds more than the limit of one
      user's calls that were let through. */
  lemma {:induction false} AtMostAFewAMinute(calls: seq<Call>, user: string, start: real)
    requires Ordered(calls)
    ensures InMinute(Allowed(calls, user), start) <= PROBES_PER_MINUTE
  {
    if calls != [] {
      var n := |calls| - 1;
      var c := calls[n];
      AtMostAFewAMinute(calls[..n], user, start);
      var before := Allowed(calls[..n], user);
      if c.user == user && Verdict(calls, n) {
        LetThrough(calls, n);
        assert (before + [c.now])[..|before|] == before;
        if start <= c.now < start + 60.0 {
          MinuteIsRecent(before, start, c.now);
        }
      }
    }
  }
}
