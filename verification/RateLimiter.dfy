/** The sliding-window rate limiter: the in-process form, the Redis form, and what both promise.
    A client's list is pruned at every request; the full log of requests is the specification. */
module RateLimiter {
  import opened Collections

  datatype Request = Request(client: string, now: real)

  // ---------- The specification: the full log ----------

  /** The request times of one client, in order. */
  function Log(reqs: seq<Request>, client: string): seq<real> {
    if reqs == [] then []
    else
      var earlier, last := Log(reqs[..|reqs| - 1], client), reqs[|reqs| - 1];
      if last.client == client then earlier + [last.now] else earlier
  }

  /** The times after the cutoff, in order. */
  function Recent(times: seq<real>, cutoff: real): seq<real> {
    if times == [] then []
    else
      var earlier, last := Recent(times[..|times| - 1], cutoff), times[|times| - 1];
      if last > cutoff then earlier + [last] else earlier
  }

  ghost predicate Nondecreasing(reqs: seq<Request>) {
    forall i, j :: 0 <= i < j < |reqs| ==> reqs[i].now <= reqs[j].now
  }

  ghost predicate Increasing(reqs: seq<Request>) {
    forall i, j :: 0 <= i < j < |reqs| ==> reqs[i].now < reqs[j].now
  }

  // ---------- The in-process form ----------

  /** The list a client has after a request: what is left of it after pruning, and the new time. */
  function Pruned(times: seq<real>, now: real, window: int): seq<real> {
    Recent(times, now - window as real) + [now]
  }

  function Lookup(table: map<string, seq<real>>, client: string): seq<real> {
    if client in table then table[client] else []
  }

  function LocalStep(table: map<string, seq<real>>, r: Request, window: int): map<string, seq<real>> {
    table[r.client := Pruned(Lookup(table, r.client), r.now, window)]
  }

  function LocalTable(reqs: seq<Request>, window: int): map<string, seq<real>> {
    if reqs == [] then map[]
    else LocalStep(LocalTable(reqs[..|reqs| - 1], window), reqs[|reqs| - 1], window)
  }

  /** Whether the last request of a run is admitted. */
  predicate LocalAdmits(reqs: seq<Request>, limit: int, window: int)
    requires reqs != []
  {
    |Lookup(LocalTable(reqs, window), reqs[|reqs| - 1].client)| <= limit
  }

  class Limiter {
    const limit: int
    const window: int
    var local: map<string, seq<real>>

    constructor (limit: int, window: int)
      ensures this.limit == limit && this.window == window && local == LocalTable([], window)
    {
      this.limit, this.window, local := limit, window, map[];
    }

    /** Records a request; `admitted` is false where _check_local raises. */
    method CheckLocal(client: string, now: real) returns (admitted: bool)
      modifies this
      ensures local == LocalStep(old(local), Request(client, now), window)
      ensures admitted <==> |local[client]| <= limit
    {
      var times := if client in local then local[client] else [];
      var cutoff := now - window as real;
      var kept: seq<real> := [];
      for i := 0 to |times|
        invariant kept == Recent(times[..i], cutoff)
      {
        assert times[..i + 1][..i] == times[..i];
        if times[i] > cutoff {
          kept := kept + [times[i]];
        }
      }
      assert times[..|times|] == times;
      kept := kept + [now];
      local := local[client := kept];
      return |kept| <= limit;
    }
  }

  // ---------- The pruned list stands for the log ----------

  lemma {:induction false} RecentOfRecent(times: seq<real>, c: real, d: real)
    requires c <= d
    ensures Recent(Recent(times, c), d) == Recent(times, d)
  {
    if times != [] {
      var front, last := times[..|times| - 1], times[|times| - 1];
      RecentOfRecent(front, c, d);
      if last > c {
        RecentSnoc(Recent(front, c), last, d);
      }
    }
  }

  lemma RecentSnoc(times: seq<real>, t: real, cutoff: real)
    ensures Recent(times + [t], cutoff) == if t > cutoff then Recent(times, cutoff) + [t] else Recent(times, cutoff)
  {
    assert (times + [t])[..|times|] == times;
  }

  lemma {:induction false} LogMember(reqs: seq<Request>, client: string, t: real)
    ensures t in Log(reqs, client) <==> exists i :: 0 <= i < |reqs| && reqs[i] == Request(client, t)
  {
    if reqs != [] {
      var front := reqs[..|reqs| - 1];
      LogMember(front, client, t);
      assert forall i :: 0 <= i < |front| ==> front[i] == reqs[i];
      if t in Log(front, client) {
        var i :| 0 <= i < |front| && front[i] == Request(client, t);
        assert reqs[i] == Request(client, t);
      }
    }
  }

  /** A log restricted to the window that ends with its last entry; that entry always belongs to it. */
  function Windowed(log: seq<real>, window: int): seq<real> {
    if log == [] then [] else Pruned(log[..|log| - 1], log[|log| - 1], window)
  }

  lemma WindowedSnoc(log: seq<real>, now: real, window: int)
    requires log == [] || log[|log| - 1] <= now
    ensures Windowed(log + [now], window) == Pruned(Windowed(log, window), now, window)
  {
    WindowedEnd(log, now, window);
    if log != [] {
      var prev, latest := log[..|log| - 1], log[|log| - 1];
      assert log == prev + [latest];
      PruneAgain(prev, latest, latest - window as real, now - window as real);
    }
  }

  lemma WindowedEnd(prev: seq<real>, now: real, window: int)
    ensures Windowed(prev + [now], window) == Recent(prev, now - window as real) + [now]
  {
    assert (prev + [now])[..|prev|] == prev;
  }

  lemma PruneAgain(prev: seq<real>, latest: real, c: real, d: real)
    requires c <= d
    ensures Recent(Recent(prev, c) + [latest], d) == Recent(prev + [latest], d)
  {
    RecentSnoc(prev, latest, d);
    RecentSnoc(Recent(prev, c), latest, d);
    RecentOfRecent(prev, c, d);
  }

  /** For a clock that does not run backwards, the list a client holds is its whole log restricted to the window
      before its last request. */
  lemma {:induction false} PrunedIsWindow(reqs: seq<Request>, client: string, window: int)
    requires Nondecreasing(reqs)
    ensures Lookup(LocalTable(reqs, window), client) == Windowed(Log(reqs, client), window)
  {
    if reqs != [] {
      var front, last := reqs[..|reqs| - 1], reqs[|reqs| - 1];
      PrunedIsWindow(front, client, window);
      if last.client == client {
        var log := Log(front, client);
        if log != [] {
          LogMember(front, client, log[|log| - 1]);
        }
        WindowedSnoc(log, last.now, window);
      }
    }
  }

  /** The decision in terms of the log: admitted iff fewer than `limit` earlier attempts, admitted or not,
      fall inside the window. */
  lemma DecisionIsWindowCount(reqs: seq<Request>, limit: int, window: int)
    requires reqs != [] && Nondecreasing(reqs)
    ensures var last := reqs[|reqs| - 1];
      LocalAdmits(reqs, limit, window)
      <==> |Recent(Log(reqs[..|reqs| - 1], last.client), last.now - window as real)| < limit
  {
    var front, last := reqs[..|reqs| - 1], reqs[|reqs| - 1];
    PrunedIsWindow(reqs, last.client, window);
    WindowedEnd(Log(front, last.client), last.now, window);
  }

  // ---------- What the limiter promises ----------

  /** How many requests of the client were admitted at times in (from, to]. */
  function AdmittedIn(reqs: seq<Request>, client: string, from: real, to: real, limit: int, window: int): nat {
    if reqs == [] then 0
    else
      var last := reqs[|reqs| - 1];
      AdmittedIn(reqs[..|reqs| - 1], client, from, to, limit, window)
      + if last.client == client && from < last.now <= to && LocalAdmits(reqs, limit, window) then 1 else 0
  }

  lemma {:induction false} AdmittedAreLogged(reqs: seq<Request>, client: string, from: real, to: real,
                                             limit: int, window: int)
    ensures AdmittedIn(reqs, client, from, to, limit, window) <= |Recent(Log(reqs, client), from)|
  {
    if reqs != [] {
      var front := reqs[..|reqs| - 1];
      AdmittedAreLogged(front, client, from, to, limit, window);
      RecentSnoc(Log(front, client), reqs[|reqs| - 1].now, from);
    }
  }

  lemma {:induction false} RecentShrinks(times: seq<real>, c: real, d: real)
    requires c <= d
    ensures |Recent(times, d)| <= |Recent(times, c)|
  {
    if times != [] {
      RecentShrinks(times[..|times| - 1], c, d);
    }
  }

  /** At every instant, no client has had more than `limit` requests admitted in the window that ends there. */
  lemma {:induction false} NeverOverLimit(reqs: seq<Request>, client: string, at: real, limit: int, window: int)
    requires Nondecreasing(reqs) && 0 <= limit
    ensures AdmittedIn(reqs, client, at - window as real, at, limit, window) <= limit
  {
    if reqs != [] {
      var front, last := reqs[..|reqs| - 1], reqs[|reqs| - 1];
      var from := at - window as real;
      NeverOverLimit(front, client, at, limit, window);
      if last.client == client && from < last.now <= at && LocalAdmits(reqs, limit, window) {
        DecisionIsWindowCount(reqs, limit, window);
        AdmittedAreLogged(front, client, from, at, limit, window);
        RecentShrinks(Log(front, client), last.now - window as real, from);
      }
    }
  }

  /** The list a client would hold had it been alone. */
  function Alone(log: seq<real>, window: int): seq<real> {
    if log == [] then [] else Pruned(Alone(log[..|log| - 1], window), log[|log| - 1], window)
  }

  /** Whatever the clock does, what a client holds depends on its own requests only. */
  lemma {:induction false} ClientsAreIndependent(reqs: seq<Request>, client: string, window: int)
    ensures Lookup(LocalTable(reqs, window), client) == Alone(Log(reqs, client), window)
  {
    if reqs != [] {
      var front := reqs[..|reqs| - 1];
      ClientsAreIndependent(front, client, window);
      if reqs[|reqs| - 1].client == client {
        assert Log(reqs, client)[..|Log(front, client)|] == Log(front, client);
      }
    }
  }

  /** A client that was silent for a whole window is admitted. */
  lemma SilentClientIsAdmitted(reqs: seq<Request>, limit: int, window: int)
    requires reqs != [] && Nondecreasing(reqs) && 1 <= limit
    requires forall i :: 0 <= i < |reqs| - 1 && reqs[i].client == reqs[|reqs| - 1].client
                         ==> reqs[i].now <= reqs[|reqs| - 1].now - window as real
    ensures LocalAdmits(reqs, limit, window)
  {
    var front, last := reqs[..|reqs| - 1], reqs[|reqs| - 1];
    var log := Log(front, last.client);
    forall k | 0 <= k < |log| ensures log[k] <= last.now - window as real {
      LogMember(front, last.client, log[k]);
    }
    NothingRecent(log, last.now - window as real);
    DecisionIsWindowCount(reqs, limit, window);
  }

  lemma {:induction false} NothingRecent(times: seq<real>, cutoff: real)
    requires forall k :: 0 <= k < |times| ==> times[k] <= cutoff
    ensures Recent(times, cutoff) == []
  {
    if times != [] {
      NothingRecent(times[..|times| - 1], cutoff);
    }
  }

  // ---------- The Redis form ----------

  /** A sorted set whose members are the times themselves, with the instant at which the whole key expires. */
  datatype SortedSet = SortedSet(scores: set<real>, expiresAt: real)

  function Live(table: map<string, SortedSet>, client: string, now: real): set<real> {
    if client in table && now < table[client].expiresAt then table[client].scores else {}
  }

  /** zadd, then zremrangebyscore from 0 to now - window inclusive. */
  function RedisScores(table: map<string, SortedSet>, r: Request, window: int): set<real> {
    set t | t in Live(table, r.client, r.now) + {r.now} && !(0.0 <= t <= r.now - window as real)
  }

  function RedisStep(table: map<string, SortedSet>, r: Request, window: int): map<string, SortedSet> {
    table[r.client := SortedSet(RedisScores(table, r, window), r.now + window as real)]
  }

  function RedisTable(reqs: seq<Request>, window: int): map<string, SortedSet> {
    if reqs == [] then map[]
    else RedisStep(RedisTable(reqs[..|reqs| - 1], window), reqs[|reqs| - 1], window)
  }

  predicate RedisAdmits(reqs: seq<Request>, limit: int, window: int)
    requires reqs != []
  {
    |RedisScores(RedisTable(reqs[..|reqs| - 1], window), reqs[|reqs| - 1], window)| <= limit
  }

  class RedisLimiter {
    const limit: int
    const window: int
    var store: map<string, SortedSet>

    constructor (limit: int, window: int)
      ensures this.limit == limit && this.window == window && store == RedisTable([], window)
    {
      this.limit, this.window, store := limit, window, map[];
    }

    /** The pipeline of four commands, executed as one. */
    method CheckRedis(client: string, now: real) returns (admitted: bool)
      modifies this
      ensures store == RedisStep(old(store), Request(client, now), window)
      ensures admitted <==> |store[client].scores| <= limit
    {
      var members := Live(store, client, now);
      members := members + {now};
      members := set t | t in members && !(0.0 <= t <= now - window as real);
      var count := |members|;
      store := store[client := SortedSet(members, now + window as real)];
      return count <= limit;
    }
  }

  lemma {:induction false} ElementsOfRecent(times: seq<real>, cutoff: real)
    ensures Elements(Recent(times, cutoff)) == set t | t in Elements(times) && t > cutoff
  {
    if times != [] {
      var front, last := times[..|times| - 1], times[|times| - 1];
      ElementsOfRecent(front, cutoff);
      assert times == front + [last];
      assert Elements(times) == Elements(front) + {last};
      assert last > cutoff ==> Elements(Recent(times, cutoff)) == Elements(Recent(front, cutoff)) + {last};
    }
  }

  /** Expiry of the key only forgets what the eviction by score would remove. */
  lemma EvictionIsPruning(held: seq<real>, latest: real, now: real, window: int)
    requires window > 0 && 0.0 <= latest <= now
    requires forall k :: 0 <= k < |held| ==> 0.0 <= held[k] <= latest
    ensures var live := if now < latest + window as real then Elements(held) else {};
      (set t | t in live + {now} && !(0.0 <= t <= now - window as real)) == Elements(Pruned(held, now, window))
  {
    var cutoff := now - window as real;
    ElementsOfRecent(held, cutoff);
    assert Elements(Pruned(held, now, window)) == Elements(Recent(held, cutoff)) + {now};
  }

  lemma HeldInRange(reqs: seq<Request>, client: string, window: int)
    requires Nondecreasing(reqs) && forall i :: 0 <= i < |reqs| ==> 0.0 <= reqs[i].now
    ensures var held := Lookup(LocalTable(reqs, window), client); var log := Log(reqs, client);
      forall k :: 0 <= k < |held| ==> log != [] && 0.0 <= held[k] <= log[|log| - 1]
    ensures forall k :: 0 <= k < |Log(reqs, client)| ==> 0.0 <= Log(reqs, client)[k]
  {
    var held, log := Lookup(LocalTable(reqs, window), client), Log(reqs, client);
    ClientsAreIndependent(reqs, client, window);
    LogIsSorted(reqs, client);
    forall k | 0 <= k < |log| ensures 0.0 <= log[k] {
      LogMember(reqs, client, log[k]);
    }
    forall k | 0 <= k < |held| ensures log != [] && 0.0 <= held[k] <= log[|log| - 1] {
      HeldAreLogged(log, window, held[k]);
    }
  }

  /** The sorted set of a client that holds the listed times, and expires a window after its last request. */
  ghost predicate HoldsListed(reqs: seq<Request>, client: string, window: int) {
    var table, log := RedisTable(reqs, window), Log(reqs, client);
    && (client in table <==> log != [])
    && (log != [] ==> table[client].scores == Elements(Lookup(LocalTable(reqs, window), client))
                      && table[client].expiresAt == log[|log| - 1] + window as real)
  }

  /** With a positive window the sorted set holds exactly the listed times, and expires a window after the last. */
  lemma {:induction false} ScoresAreHeld(reqs: seq<Request>, client: string, window: int)
    requires Nondecreasing(reqs) && window > 0 && forall i :: 0 <= i < |reqs| ==> 0.0 <= reqs[i].now
    ensures HoldsListed(reqs, client, window)
  {
    if reqs != [] {
      var front, last := reqs[..|reqs| - 1], reqs[|reqs| - 1];
      ScoresAreHeld(front, client, window);
      if last.client == client {
        OwnRequestIsHeld(reqs, window);
      }
    }
  }

  /** The step of a client's own request. */
  lemma OwnRequestIsHeld(reqs: seq<Request>, window: int)
    requires reqs != [] && Nondecreasing(reqs) && window > 0 && forall i :: 0 <= i < |reqs| ==> 0.0 <= reqs[i].now
    requires HoldsListed(reqs[..|reqs| - 1], reqs[|reqs| - 1].client, window)
    ensures HoldsListed(reqs, reqs[|reqs| - 1].client, window)
  {
    var front, last := reqs[..|reqs| - 1], reqs[|reqs| - 1];
    var log, held := Log(front, last.client), Lookup(LocalTable(front, window), last.client);
    var latest := if log == [] then 0.0 else log[|log| - 1];
    HeldBeforeLast(reqs, window);
    assert forall k :: 0 <= k < |held| ==> 0.0 <= held[k] <= latest;
    EvictionIsPruning(held, latest, last.now, window);
    LiveIsHeld(front, last, window);
    assert Lookup(LocalTable(reqs, window), last.client) == Pruned(held, last.now, window);
  }

  lemma LiveIsHeld(front: seq<Request>, last: Request, window: int)
    requires HoldsListed(front, last.client, window)
    requires Log(front, last.client) == [] ==> Lookup(LocalTable(front, window), last.client) == []
    ensures var log, held := Log(front, last.client), Lookup(LocalTable(front, window), last.client);
      var latest := if log == [] then 0.0 else log[|log| - 1];
      Live(RedisTable(front, window), last.client, last.now)
      == if last.now < latest + window as real then Elements(held) else {}
  {
  }

  /** What the client of the last request held before it lies between 0 and its previous request. */
  lemma HeldBeforeLast(reqs: seq<Request>, window: int)
    requires reqs != [] && Nondecreasing(reqs) && forall i :: 0 <= i < |reqs| ==> 0.0 <= reqs[i].now
    ensures var front, last := reqs[..|reqs| - 1], reqs[|reqs| - 1];
      var log, held := Log(front, last.client), Lookup(LocalTable(front, window), last.client);
      var latest := if log == [] then 0.0 else log[|log| - 1];
      && 0.0 <= latest <= last.now && (log == [] ==> held == [])
      && forall k :: 0 <= k < |held| ==> 0.0 <= held[k] <= latest
  {
    var front, client := reqs[..|reqs| - 1], reqs[|reqs| - 1].client;
    var log := Log(front, client);
    HeldInRange(front, client, window);
    ClientsAreIndependent(front, client, window);
    if log != [] {
      LogMember(front, client, log[|log| - 1]);
    }
  }

  lemma {:induction false} HeldAreLogged(log: seq<real>, window: int, t: real)
    requires t in Alone(log, window)
    ensures t in log
  {
    var front, last := log[..|log| - 1], log[|log| - 1];
    if t != last {
      ElementsOfRecent(Alone(front, window), last - window as real);
      assert t in Elements(Recent(Alone(front, window), last - window as real));
      HeldAreLogged(front, window, t);
    }
  }

  lemma {:induction false} LogIsSorted(reqs: seq<Request>, client: string)
    requires Nondecreasing(reqs)
    ensures forall i, j :: 0 <= i < j < |Log(reqs, client)| ==> Log(reqs, client)[i] <= Log(reqs, client)[j]
    ensures Increasing(reqs) ==>
      forall i, j :: 0 <= i < j < |Log(reqs, client)| ==> Log(reqs, client)[i] < Log(reqs, client)[j]
  {
    if reqs != [] {
      var front := reqs[..|reqs| - 1];
      LogIsSorted(front, client);
      forall i | 0 <= i < |Log(front, client)|
        ensures exists k :: 0 <= k < |front| && reqs[k].now == Log(front, client)[i]
      {
        LogMember(front, client, Log(front, client)[i]);
      }
    }
  }

  lemma {:induction false} RecentIsSorted(times: seq<real>, cutoff: real)
    requires forall i, j :: 0 <= i < j < |times| ==> times[i] < times[j]
    ensures forall i, j :: 0 <= i < j < |Recent(times, cutoff)| ==> Recent(times, cutoff)[i] < Recent(times, cutoff)[j]
  {
    if times != [] {
      var front := times[..|times| - 1];
      RecentIsSorted(front, cutoff);
      ElementsOfRecent(front, cutoff);
      forall i | 0 <= i < |Recent(front, cutoff)| ensures Recent(front, cutoff)[i] < times[|times| - 1] {
        assert Recent(front, cutoff)[i] in Elements(Recent(front, cutoff));
      }
    }
  }

  lemma {:induction false} CountElements(times: seq<real>)
    ensures |Elements(times)| <= |times|
    ensures (forall i, j :: 0 <= i < j < |times| ==> times[i] < times[j]) ==> |Elements(times)| == |times|
  {
    if times != [] {
      var front, last := times[..|times| - 1], times[|times| - 1];
      CountElements(front);
      assert times == front + [last];
      assert Elements(times) == Elements(front) + {last};
    }
  }

  lemma HeldIsSorted(reqs: seq<Request>, window: int)
    requires reqs != [] && Increasing(reqs)
    ensures var held := Lookup(LocalTable(reqs, window), reqs[|reqs| - 1].client);
      forall i, j :: 0 <= i < j < |held| ==> held[i] < held[j]
  {
    var front, last := reqs[..|reqs| - 1], reqs[|reqs| - 1];
    var log := Log(front, last.client);
    PrunedIsWindow(reqs, last.client, window);
    WindowedEnd(log, last.now, window);
    LogIsSorted(front, last.client);
    RecentIsSorted(log, last.now - window as real);
    ElementsOfRecent(log, last.now - window as real);
    var recent := Recent(log, last.now - window as real);
    forall k | 0 <= k < |recent| ensures recent[k] < last.now {
      assert recent[k] in Elements(recent);
      LogMember(front, last.client, recent[k]);
    }
  }

  /** What the Redis form counts: the distinct listed times, or nothing at all if the window is not positive. */
  lemma RedisCount(reqs: seq<Request>, window: int)
    requires reqs != [] && Nondecreasing(reqs) && forall i :: 0 <= i < |reqs| ==> 0.0 <= reqs[i].now
    ensures RedisScores(RedisTable(reqs[..|reqs| - 1], window), reqs[|reqs| - 1], window)
            == if window > 0 then Elements(Lookup(LocalTable(reqs, window), reqs[|reqs| - 1].client)) else {}
  {
    var front, last := reqs[..|reqs| - 1], reqs[|reqs| - 1];
    if window > 0 {
      ScoresAreHeld(reqs, last.client, window);
    } else {
      NothingStored(reqs, window, last.client);
    }
  }

  /** A window that is not positive evicts every time as soon as it is added. */
  lemma {:induction false} NothingStored(reqs: seq<Request>, window: int, client: string)
    requires forall i :: 0 <= i < |reqs| ==> 0.0 <= reqs[i].now
    requires window <= 0
    ensures var table := RedisTable(reqs, window); client in table ==> table[client].scores == {}
  {
    if reqs != [] {
      NothingStored(reqs[..|reqs| - 1], window, client);
    }
  }

  /** With a clock that always advances both forms decide every request alike, unless the window is not positive
      and the limit is 0: then the local form refuses everything and the Redis form admits everything. */
  lemma FormsAgree(reqs: seq<Request>, limit: int, window: int)
    requires reqs != [] && Increasing(reqs) && forall i :: 0 <= i < |reqs| ==> 0.0 <= reqs[i].now
    ensures (RedisAdmits(reqs, limit, window) <==> LocalAdmits(reqs, limit, window)) <==> window > 0 || limit != 0
  {
    var last := reqs[|reqs| - 1];
    RedisCount(reqs, window);
    HeldIsSorted(reqs, window);
    CountElements(Lookup(LocalTable(reqs, window), last.client));
    if window <= 0 {
      AloneInWindow(reqs, limit, window);
    }
  }

  /** Without a positive window a request only counts itself. */
  lemma AloneInWindow(reqs: seq<Request>, limit: int, window: int)
    requires reqs != [] && Nondecreasing(reqs) && window <= 0
    ensures LocalAdmits(reqs, limit, window) <==> 1 <= limit
  {
    var front, last := reqs[..|reqs| - 1], reqs[|reqs| - 1];
    var log := Log(front, last.client);
    forall k | 0 <= k < |log| ensures log[k] <= last.now - window as real {
      LogMember(front, last.client, log[k]);
    }
    NothingRecent(log, last.now - window as real);
    DecisionIsWindowCount(reqs, limit, window);
  }

  /** The times of the client of the last request that fall inside the window that ends with it, itself included. */
  function InWindow(reqs: seq<Request>, window: int): seq<real>
    requires reqs != []
  {
    var last := reqs[|reqs| - 1];
    Recent(Log(reqs[..|reqs| - 1], last.client), last.now - window as real) + [last.now]
  }

  /** With repeated times the Redis form never rejects what the local form admits. For a positive window they differ
      exactly when the limit lies between the distinct times and all times in the window, and for another one exactly
      when it is 0. */
  lemma RedisIsMoreLenient(reqs: seq<Request>, limit: int, window: int)
    requires reqs != [] && Nondecreasing(reqs) && forall i :: 0 <= i < |reqs| ==> 0.0 <= reqs[i].now
    ensures LocalAdmits(reqs, limit, window) ==> RedisAdmits(reqs, limit, window)
    ensures var times := InWindow(reqs, window);
      RedisAdmits(reqs, limit, window) != LocalAdmits(reqs, limit, window)
      <==> if window > 0 then |Elements(times)| <= limit < |times| else limit == 0
  {
    RedisCount(reqs, window);
    HeldIsInWindow(reqs, window);
    CountElements(InWindow(reqs, window));
    if window <= 0 {
      AloneInWindow(reqs, limit, window);
    }
  }

  lemma HeldIsInWindow(reqs: seq<Request>, window: int)
    requires reqs != [] && Nondecreasing(reqs)
    ensures Lookup(LocalTable(reqs, window), reqs[|reqs| - 1].client) == InWindow(reqs, window)
  {
    var front, last := reqs[..|reqs| - 1], reqs[|reqs| - 1];
    PrunedIsWindow(reqs, last.client, window);
    WindowedEnd(Log(front, last.client), last.now, window);
  }

  // ---------- Where the forms differ ----------

  /** One request under a limit and a window of 0: refused by the local form, admitted by the Redis form. */
  lemma FormsDiffer(client: string)
    ensures var reqs := [Request(client, 1.0)]; RedisAdmits(reqs, 0, 0) && !LocalAdmits(reqs, 0, 0)
  {
    FormsAgree([Request(client, 1.0)], 0, 0);
    AloneInWindow([Request(client, 1.0)], 0, 0);
  }

  /** Two requests at one instant under a limit of 1: the Redis form admits the second, the local form does not. */
  lemma RepeatedTimesDiffer(client: string)
    ensures var reqs := [Request(client, 1.0), Request(client, 1.0)];
      RedisAdmits(reqs, 1, 1) && !LocalAdmits(reqs, 1, 1)
  {
    var reqs := [Request(client, 1.0), Request(client, 1.0)];
    TwiceAtOnce(client);
    assert Elements([1.0, 1.0]) == {1.0};
    RedisIsMoreLenient(reqs, 1, 1);
    HeldIsInWindow(reqs, 1);
  }

  lemma TwiceAtOnce(client: string)
    ensures InWindow([Request(client, 1.0), Request(client, 1.0)], 1) == [1.0, 1.0]
  {
    var r := Request(client, 1.0);
    assert [r][..0] == [] && [r, r][..1] == [r] && [1.0][..0] == [];
    assert Log([r], client) == [1.0];
    assert Recent([1.0], 0.0) == [1.0];
  }
}
