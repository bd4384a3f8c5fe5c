/** WebSocket rooms: the connection manager, and its atomic blocks interleaved at every `await`. */
module Rooms {
  import opened Collections

  /** A connection is identified by a number; each accepted socket has its own. */
  type Conn = int

  type Table = map<string, set<Conn>>

  function Members(rooms: Table, room: string): set<Conn> {
    if room in rooms then rooms[room] else {}
  }

  function Join(rooms: Table, room: string, c: Conn): Table {
    rooms[room := Members(rooms, room) + {c}]
  }

  /** Removes connections from a room, and the room's entry with its last connection. */
  function Leave(rooms: Table, room: string, gone: set<Conn>): Table {
    if Members(rooms, room) - gone == {} then rooms - {room} else rooms[room := Members(rooms, room) - gone]
  }

  ghost predicate NoEmptyRoom(rooms: Table) {
    forall room :: room in rooms ==> rooms[room] != {}
  }

  class ConnectionManager {
    var rooms: Table

    constructor ()
      ensures rooms == map[]
    {
      rooms := map[];
    }

    /** What connect does once the upgrade has been accepted. */
    method Connect(room: string, c: Conn)
      modifies this
      ensures rooms == Join(old(rooms), room, c)
    {
      if room !in rooms {
        rooms := rooms[room := {}];
      }
      rooms := rooms[room := rooms[room] + {c}];
    }

    method Disconnect(room: string, c: Conn)
      modifies this
      ensures rooms == Leave(old(rooms), room, {c})
    {
      if room !in rooms {
        rooms := rooms[room := {}];
      }
      rooms := rooms[room := rooms[room] - {c}];
      if rooms[room] == {} {
        rooms := rooms - {room};
      }
      assert room !in old(rooms) ==> rooms == old(rooms) - {room};
    }

    /** The snapshot a broadcast iterates over, in an order the set does not determine. */
    method Recipients(room: string) returns (order: seq<Conn>)
      ensures Lists(order, Members(rooms, room))
    {
      var rest := if room in rooms then rooms[room] else {};
      order := [];
      while rest != {}
        invariant rest <= Members(rooms, room) && Lists(order, Members(rooms, room) - rest)
        decreases rest
      {
        ghost var one := Member(rest);
        var c :| c in rest;
        order, rest := order + [c], rest - {c};
      }
    }

    /** The last block of a broadcast: drop the connections whose send failed. */
    method Prune(room: string, dead: set<Conn>)
      modifies this
      ensures rooms == Leave(old(rooms), room, dead)
    {
      var rest := dead;
      while rest != {}
        invariant rest <= dead
        invariant forall r :: r != room ==> (r in rooms <==> r in old(rooms))
        invariant forall r :: r != room && r in rooms ==> rooms[r] == old(rooms)[r]
        invariant Members(rooms, room) == Members(old(rooms), room) - (dead - rest)
        invariant room in old(rooms) ==> room in rooms
        decreases rest
      {
        ghost var one := Member(rest);
        var c :| c in rest;
        if room !in rooms {
          rooms := rooms[room := {}];
        }
        rooms := rooms[room := rooms[room] - {c}];
        rest := rest - {c};
      }
      assert dead - rest == dead;
      if room in rooms && rooms[room] == {} {
        rooms := rooms - {room};
      }
      assert rooms == Leave(old(rooms), room, dead);
    }

    method RoomSize(room: string) returns (n: nat)
      ensures n == |Members(rooms, room)|
    {
      n := if room in rooms then |rooms[room]| else 0;
    }
  }

  // ---------- Interleaving ----------

  /** A broadcast in flight: its recipients in sending order, how many sends have returned, and which failed. */
  datatype Broadcast = Broadcast(room: string, targets: seq<Conn>, sent: nat, dead: set<Conn>)

  datatype Attempt = Attempt(id: int, conn: Conn, ok: bool)

  datatype System = System(rooms: Table, active: map<int, Broadcast>, done: map<int, Broadcast>, log: seq<Attempt>)

  /** One atomic block: between two `await`s nothing else runs. */
  datatype Action =
    | Connect(room: string, conn: Conn)
    | Disconnect(room: string, conn: Conn)
    | Start(id: int, room: string, targets: seq<Conn>)
    | Send(id: int, ok: bool)

  const INITIAL := System(map[], map[], map[], [])

  ghost predicate Enabled(s: System, a: Action) {
    match a
    case Connect(_, _) => true
    case Disconnect(_, _) => true
    case Start(id, room, targets) => id !in s.active && id !in s.done && Lists(targets, Members(s.rooms, room))
    case Send(id, _) => id in s.active && s.active[id].sent < |s.active[id].targets|
  }

  function Apply(s: System, a: Action): System
    requires a.Send? ==> a.id in s.active && s.active[a.id].sent < |s.active[a.id].targets|
  {
    match a
    case Connect(room, c) => s.(rooms := Join(s.rooms, room, c))
    case Disconnect(room, c) => s.(rooms := Leave(s.rooms, room, {c}))
    case Start(id, room, targets) =>
      var b := Broadcast(room, targets, 0, {});
      if targets == [] then s.(rooms := Leave(s.rooms, room, {}), done := s.done[id := b])
      else s.(active := s.active[id := b])
    case Send(id, ok) =>
      var b := s.active[id];
      var c := b.targets[b.sent];
      var after := Advance(b, ok);
      var logged := s.(log := s.log + [Attempt(id, c, ok)]);
      if after.sent < |b.targets| then logged.(active := s.active[id := after])
      else logged.(rooms := Leave(s.rooms, b.room, after.dead), active := s.active - {id}, done := s.done[id := after])
  }

  ghost predicate Runs(s: System, actions: seq<Action>)
    decreases |actions|
  {
    actions == [] || (Enabled(s, actions[0]) && Runs(Apply(s, actions[0]), actions[1..]))
  }

  ghost function Final(s: System, actions: seq<Action>): System
    requires Runs(s, actions)
    decreases |actions|
  {
    if actions == [] then s else Final(Apply(s, actions[0]), actions[1..])
  }

  /** The attempts of one broadcast, in order. */
  function AttemptsOf(log: seq<Attempt>, id: int): seq<Conn> {
    if log == [] then []
    else
      var earlier, last := AttemptsOf(log[..|log| - 1], id), log[|log| - 1];
      if last.id == id then earlier + [last.conn] else earlier
  }

  function FailuresOf(log: seq<Attempt>, id: int): set<Conn> {
    set a | a in log && a.id == id && !a.ok :: a.conn
  }

  ghost predicate Tracks(log: seq<Attempt>, id: int, b: Broadcast) {
    && b.sent <= |b.targets| && Distinct(b.targets)
    && AttemptsOf(log, id) == b.targets[..b.sent]
    && FailuresOf(log, id) == b.dead
  }

  /** Holds between any two atomic blocks. */
  ghost predicate Invariant(s: System) {
    && NoEmptyRoom(s.rooms)
    && (forall id :: id in s.active ==> id !in s.done && Tracks(s.log, id, s.active[id])
                                        && s.active[id].sent < |s.active[id].targets|)
    && (forall id :: id in s.done ==> Tracks(s.log, id, s.done[id]) && s.done[id].sent == |s.done[id].targets|)
    && (forall a :: a in s.log ==> a.id in s.active || a.id in s.done)
  }

  lemma {:induction false} NoAttempts(log: seq<Attempt>, id: int)
    requires forall a :: a in log ==> a.id != id
    ensures AttemptsOf(log, id) == [] && FailuresOf(log, id) == {}
  {
    if log != [] {
      assert log[|log| - 1] in log;
      forall a | a in log[..|log| - 1] ensures a.id != id { assert a in log; }
      NoAttempts(log[..|log| - 1], id);
    }
  }

  lemma LogSnoc(log: seq<Attempt>, a: Attempt, id: int)
    ensures AttemptsOf(log + [a], id) == if a.id == id then AttemptsOf(log, id) + [a.conn] else AttemptsOf(log, id)
    ensures FailuresOf(log + [a], id) ==
            if a.id == id && !a.ok then FailuresOf(log, id) + {a.conn} else FailuresOf(log, id)
  {
    assert (log + [a])[..|log|] == log;
    assert forall x :: x in log + [a] <==> x in log || x == a;
  }

  lemma StepKeepsInvariant(s: System, a: Action)
    requires Invariant(s) && Enabled(s, a)
    ensures Invariant(Apply(s, a))
  {
    var t := Apply(s, a);
    match a
    case Connect(_, _) =>
    case Disconnect(_, _) =>
    case Start(id, _, _) => NoAttempts(s.log, id);
    case Send(id, ok) => SendKeepsInvariant(s, id, ok);
  }

  /** The broadcast after its next send has returned. */
  function Advance(b: Broadcast, ok: bool): Broadcast
    requires b.sent < |b.targets|
  {
    b.(sent := b.sent + 1, dead := if ok then b.dead else b.dead + {b.targets[b.sent]})
  }

  lemma AdvanceTracks(log: seq<Attempt>, id: int, b: Broadcast, ok: bool)
    requires Tracks(log, id, b) && b.sent < |b.targets|
    ensures Tracks(log + [Attempt(id, b.targets[b.sent], ok)], id, Advance(b, ok))
  {
    LogSnoc(log, Attempt(id, b.targets[b.sent], ok), id);
    assert b.targets[..b.sent + 1] == b.targets[..b.sent] + [b.targets[b.sent]];
  }

  lemma OthersTrack(log: seq<Attempt>, a: Attempt, id: int, b: Broadcast)
    requires Tracks(log, id, b) && a.id != id
    ensures Tracks(log + [a], id, b)
  {
    LogSnoc(log, a, id);
  }

  lemma SendKeepsInvariant(s: System, id: int, ok: bool)
    requires Invariant(s) && Enabled(s, Send(id, ok))
    ensures Invariant(Apply(s, Send(id, ok)))
  {
    var t, b := Apply(s, Send(id, ok)), s.active[id];
    var a := Attempt(id, b.targets[b.sent], ok);
    AdvanceTracks(s.log, id, b, ok);
    forall k | k != id && k in s.active ensures Tracks(t.log, k, s.active[k]) {
      OthersTrack(s.log, a, k, s.active[k]);
    }
    forall k | k in s.done ensures Tracks(t.log, k, s.done[k]) {
      OthersTrack(s.log, a, k, s.done[k]);
    }
    forall x | x in t.log ensures x.id in t.active || x.id in t.done {
      assert x in s.log || x == a;
    }
  }

  lemma {:induction false} InvariantAlways(s: System, actions: seq<Action>)
    requires Invariant(s) && Runs(s, actions)
    ensures Invariant(Final(s, actions))
    decreases |actions|
  {
    if actions != [] {
      StepKeepsInvariant(s, actions[0]);
      InvariantAlways(Apply(s, actions[0]), actions[1..]);
    }
  }

  /** What one atomic block does to the members of every room. A block that ends a broadcast removes exactly the
      connections that failed in it, from its own room only; no block but a connect creates a room. */
  lemma StepOnMembers(s: System, a: Action, room: string)
    requires Invariant(s) && Enabled(s, a)
    ensures var t, before := Apply(s, a), Members(s.rooms, room);
      Members(t.rooms, room) ==
        if a.Connect? && a.room == room then before + {a.conn}
        else if a.Disconnect? && a.room == room then before - {a.conn}
        else if a.Send? && a.id in t.done && t.done[a.id].room == room then before - FailuresOf(t.log, a.id)
        else before
    ensures !a.Connect? ==> Apply(s, a).rooms.Keys <= s.rooms.Keys
  {
    if a.Send? {
      FailedSoFar(s, a.id, a.ok);
    }
  }

  lemma FailedSoFar(s: System, id: int, ok: bool)
    requires Invariant(s) && Enabled(s, Send(id, ok))
    ensures FailuresOf(Apply(s, Send(id, ok)).log, id) == Advance(s.active[id], ok).dead && id !in s.done
  {
    AdvanceTracks(s.log, id, s.active[id], ok);
  }

  lemma {:induction false} SplitRun(s: System, first: seq<Action>, rest: seq<Action>)
    requires Runs(s, first + rest)
    ensures Runs(s, first) && Runs(Final(s, first), rest)
    ensures Final(s, first + rest) == Final(Final(s, first), rest)
    decreases |first|
  {
    if first == [] {
      assert first + rest == rest;
    } else {
      assert (first + rest)[1..] == first[1..] + rest;
      SplitRun(Apply(s, first[0]), first[1..], rest);
    }
  }

  ghost predicate Launched(s: System, id: int, room: string, targets: seq<Conn>) {
    || (id in s.active && s.active[id].room == room && s.active[id].targets == targets)
    || (id in s.done && s.done[id].room == room && s.done[id].targets == targets)
  }

  lemma {:induction false} LaunchedStays(s: System, actions: seq<Action>, id: int, room: string, targets: seq<Conn>)
    requires Invariant(s) && Runs(s, actions) && Launched(s, id, room, targets)
    ensures Launched(Final(s, actions), id, room, targets)
    decreases |actions|
  {
    if actions != [] {
      StepKeepsInvariant(s, actions[0]);
      LaunchedStays(Apply(s, actions[0]), actions[1..], id, room, targets);
    }
  }

  /** What the log holds of a broadcast once it was started: all of it when done, a beginning while in flight. */
  ghost predicate Delivered(s: System, id: int, targets: seq<Conn>) {
    if id in s.done then id !in s.active && AttemptsOf(s.log, id) == targets
    else id in s.active && AttemptsOf(s.log, id) < targets
  }

  lemma LaunchedIsDelivered(s: System, id: int, room: string, targets: seq<Conn>)
    requires Invariant(s) && Launched(s, id, room, targets)
    ensures Delivered(s, id, targets)
  {
    if id in s.active {
      var b := s.active[id];
      assert b.targets[..b.sent] < b.targets;
    }
  }

  /** Whatever connects, disconnects and other broadcasts run in between: a finished broadcast has attempted
      every connection that was in its room when it started, once each, and nobody else; one in flight has
      attempted the first of them. */
  lemma DeliveryIsExact(before: seq<Action>, start: Action, after: seq<Action>)
    requires start.Start? && Runs(INITIAL, before + [start] + after)
    ensures Runs(INITIAL, before) && Lists(start.targets, Members(Final(INITIAL, before).rooms, start.room))
    ensures Delivered(Final(INITIAL, before + [start] + after), start.id, start.targets)
  {
    var rest := [start] + after;
    assert before + [start] + after == before + rest;
    SplitRun(INITIAL, before, rest);
    var s := Final(INITIAL, before);
    assert rest[0] == start && rest[1..] == after;
    InvariantAlways(INITIAL, before);
    StepKeepsInvariant(s, start);
    LaunchedStays(Apply(s, start), after, start.id, start.room, start.targets);
    InvariantAlways(Apply(s, start), after);
    LaunchedIsDelivered(Final(Apply(s, start), after), start.id, start.room, start.targets);
  }

  // ---------- What removes a member ----------

  /** Between the two states a broadcast of the room has ended in which the connection failed. */
  ghost predicate Dropped(s: System, t: System, room: string, c: Conn) {
    exists id :: id in t.done && id !in s.done && t.done[id].room == room && c in t.done[id].dead
  }

  /** The later states know all broadcasts that had ended before. */
  ghost predicate Remembers(s: System, t: System) {
    forall id :: id in s.done ==> id in t.done && t.done[id] == s.done[id]
  }

  lemma DroppedBetween(s: System, t: System, u: System, room: string, c: Conn)
    requires Remembers(s, t) && Remembers(t, u)
    ensures Dropped(s, u, room, c) <==> Dropped(s, t, room, c) || Dropped(t, u, room, c)
  {
    if id :| id in u.done && id !in s.done && u.done[id].room == room && c in u.done[id].dead {
      assert if id in t.done then Dropped(s, t, room, c) else Dropped(t, u, room, c);
    }
    if id :| id in t.done && id !in s.done && t.done[id].room == room && c in t.done[id].dead {
      assert Dropped(s, u, room, c);
    }
  }

  lemma StepDrops(s: System, a: Action, room: string, c: Conn)
    requires Invariant(s) && Enabled(s, a) && a != Connect(room, c) && a != Disconnect(room, c)
    ensures Remembers(s, Apply(s, a))
    ensures c in Members(Apply(s, a).rooms, room) <==> c in Members(s.rooms, room) && !Dropped(s, Apply(s, a), room, c)
  {
    var t := Apply(s, a);
    StepOnMembers(s, a, room);
    StepKeepsInvariant(s, a);
    if a.Send? && a.id in t.done && t.done[a.id].room == room {
      assert FailuresOf(t.log, a.id) == t.done[a.id].dead;
    }
    forall id | id in t.done && id !in s.done ensures (a.Send? && id == a.id) || t.done[id].dead == {} {}
  }

  /** While nobody connects or disconnects it, a member of a room leaves it exactly when a broadcast of that room ends
      in which its send failed; and who is not a member does not become one. */
  lemma {:induction false} LeavesIffDropped(s: System, actions: seq<Action>, room: string, c: Conn)
    requires Invariant(s) && Runs(s, actions)
    requires Connect(room, c) !in actions && Disconnect(room, c) !in actions
    ensures Remembers(s, Final(s, actions))
    ensures c in Members(Final(s, actions).rooms, room)
            <==> c in Members(s.rooms, room) && !Dropped(s, Final(s, actions), room, c)
    decreases |actions|
  {
    if actions != [] {
      var t := Apply(s, actions[0]);
      assert actions[0] in actions && forall a :: a in actions[1..] ==> a in actions;
      StepDrops(s, actions[0], room, c);
      StepKeepsInvariant(s, actions[0]);
      LeavesIffDropped(t, actions[1..], room, c);
      DroppedBetween(s, t, Final(s, actions), room, c);
    }
  }

  // ---------- Broadcasting to all rooms ----------

  /** A message on its way to all rooms: the snapshot of the rooms' names, the broadcasts started so far, one per name,
      and who was in each room when its turn came. */
  datatype Sweep = Sweep(order: seq<string>, ids: seq<int>, turns: seq<set<Conn>>)

  datatype Hall = Hall(sys: System, sweep: Sweep)

  /** Any other block, or the sweep's next broadcast, which waits for the one before it to end. */
  datatype Move = Other(action: Action) | Turn(id: int, targets: seq<Conn>)

  predicate Waiting(h: Hall) {
    h.sweep.ids != [] && h.sweep.ids[|h.sweep.ids| - 1] !in h.sys.done
  }

  ghost predicate Allowed(h: Hall, m: Move) {
    match m
    case Other(a) => Enabled(h.sys, a)
    case Turn(id, targets) =>
      && |h.sweep.ids| < |h.sweep.order| && !Waiting(h)
      && Enabled(h.sys, Start(id, h.sweep.order[|h.sweep.ids|], targets))
  }

  ghost function Moved(h: Hall, m: Move): Hall
    requires Allowed(h, m)
  {
    match m
    case Other(a) => h.(sys := Apply(h.sys, a))
    case Turn(id, targets) =>
      var room := h.sweep.order[|h.sweep.ids|];
      Hall(Apply(h.sys, Start(id, room, targets)),
           h.sweep.(ids := h.sweep.ids + [id], turns := h.sweep.turns + [Members(h.sys.rooms, room)]))
  }

  ghost predicate Sweeps(h: Hall, moves: seq<Move>)
    decreases |moves|
  {
    moves == [] || (Allowed(h, moves[0]) && Sweeps(Moved(h, moves[0]), moves[1..]))
  }

  ghost function Swept(h: Hall, moves: seq<Move>): Hall
    requires Sweeps(h, moves)
    decreases |moves|
  {
    if moves == [] then h else Swept(Moved(h, moves[0]), moves[1..])
  }

  /** The broadcast was started for the room with exactly these members as its targets. */
  ghost predicate LaunchedFor(s: System, id: int, room: string, members: set<Conn>) {
    || (id in s.active && s.active[id].room == room && Lists(s.active[id].targets, members))
    || (id in s.done && s.done[id].room == room && Lists(s.done[id].targets, members))
  }

  ghost predicate InOrder(h: Hall) {
    var w := h.sweep;
    && |w.turns| == |w.ids| <= |w.order| && Distinct(w.ids)
    && (forall i :: 0 <= i < |w.ids| ==> LaunchedFor(h.sys, w.ids[i], w.order[i], w.turns[i]))
    && (forall i :: 0 <= i < |w.ids| - 1 ==> w.ids[i] in h.sys.done)
  }

  lemma StepKeepsLaunched(s: System, a: Action, id: int, room: string, members: set<Conn>)
    requires Invariant(s) && Enabled(s, a) && LaunchedFor(s, id, room, members)
    ensures LaunchedFor(Apply(s, a), id, room, members) && (id in s.done ==> id in Apply(s, a).done)
  {
  }

  lemma StepInOrder(h: Hall, a: Action)
    requires Invariant(h.sys) && InOrder(h) && Enabled(h.sys, a)
    ensures InOrder(h.(sys := Apply(h.sys, a)))
  {
    var w := h.sweep;
    forall i | 0 <= i < |w.ids|
      ensures LaunchedFor(Apply(h.sys, a), w.ids[i], w.order[i], w.turns[i])
      ensures w.ids[i] in h.sys.done ==> w.ids[i] in Apply(h.sys, a).done
    {
      StepKeepsLaunched(h.sys, a, w.ids[i], w.order[i], w.turns[i]);
    }
  }

  /** The sweep's next broadcast joins those before it, which have all ended. */
  lemma TurnInOrder(h: Hall, id: int, members: set<Conn>)
    requires InOrder(h) && |h.sweep.ids| < |h.sweep.order| && !Waiting(h) && id !in h.sweep.ids
    requires LaunchedFor(h.sys, id, h.sweep.order[|h.sweep.ids|], members)
    ensures InOrder(h.(sweep := h.sweep.(ids := h.sweep.ids + [id], turns := h.sweep.turns + [members])))
  {
  }

  lemma MovedInOrder(h: Hall, m: Move)
    requires Invariant(h.sys) && InOrder(h) && Allowed(h, m)
    ensures Invariant(Moved(h, m).sys) && InOrder(Moved(h, m)) && Moved(h, m).sweep.order == h.sweep.order
  {
    var w := h.sweep;
    var a := if m.Other? then m.action else Start(m.id, w.order[|w.ids|], m.targets);
    StepKeepsInvariant(h.sys, a);
    StepInOrder(h, a);
    if m.Turn? {
      assert forall i :: 0 <= i < |w.ids| ==> LaunchedFor(h.sys, w.ids[i], w.order[i], w.turns[i]);
      StartLaunches(h.sys, a);
      DoneRemains(h, a);
      TurnInOrder(h.(sys := Apply(h.sys, a)), m.id, Members(h.sys.rooms, a.room));
    }
  }

  lemma DoneRemains(h: Hall, a: Action)
    requires Enabled(h.sys, a) && a.Start? && !Waiting(h)
    ensures !Waiting(h.(sys := Apply(h.sys, a)))
  {
  }

  lemma StartLaunches(s: System, a: Action)
    requires Enabled(s, a) && a.Start?
    ensures LaunchedFor(Apply(s, a), a.id, a.room, Members(s.rooms, a.room))
  {
  }

  lemma {:induction false} SweptInOrder(h: Hall, moves: seq<Move>)
    requires Invariant(h.sys) && InOrder(h) && Sweeps(h, moves)
    ensures var f := Swept(h, moves); Invariant(f.sys) && InOrder(f) && f.sweep.order == h.sweep.order
    decreases |moves|
  {
    if moves != [] {
      MovedInOrder(h, moves[0]);
      SweptInOrder(Moved(h, moves[0]), moves[1..]);
    }
  }

  /** A message to all rooms, with anything else going on between its awaits: once it has gone through its snapshot,
      each room of the snapshot has had exactly one broadcast, in order, that attempted exactly those who were in the
      room when its turn came. A room that vanished meanwhile gets a broadcast to nobody, a new one gets none. */
  lemma BroadcastAllReaches(s: System, order: seq<string>, moves: seq<Move>)
    requires Invariant(s) && Lists(order, s.rooms.Keys)
    requires Sweeps(Hall(s, Sweep(order, [], [])), moves)
    ensures var f := Swept(Hall(s, Sweep(order, [], [])), moves);
      && Distinct(f.sweep.ids) && |f.sweep.turns| == |f.sweep.ids| <= |order| && f.sweep.order == order
      && (|f.sweep.ids| == |order| && !Waiting(f) ==> forall i :: 0 <= i < |order| ==>
            var id := f.sweep.ids[i];
            id in f.sys.done && f.sys.done[id].room == order[i] && Lists(AttemptsOf(f.sys.log, id), f.sweep.turns[i]))
  {
    var h := Hall(s, Sweep(order, [], []));
    SweptInOrder(h, moves);
    var f := Swept(h, moves);
    if |f.sweep.ids| == |order| && !Waiting(f) {
      forall i | 0 <= i < |order|
        ensures var id := f.sweep.ids[i];
          id in f.sys.done && f.sys.done[id].room == order[i] && Lists(AttemptsOf(f.sys.log, id), f.sweep.turns[i])
      {
        DoneIsAttempted(f.sys, f.sweep.ids[i]);
      }
    }
  }

  lemma DoneIsAttempted(s: System, id: int)
    requires Invariant(s) && id in s.done
    ensures id !in s.active && AttemptsOf(s.log, id) == s.done[id].targets
  {
    assert s.done[id].targets[..s.done[id].sent] == s.done[id].targets;
  }

  // ---------- The endpoint on top of the manager ----------

  /** What else than a disconnect ends an endpoint: an object frame whose payload is not an object, a frame without
      text, or a receive on a socket that a failed send has closed. */
  datatype Cause = BadPayload | BinaryFrame | ClosedSocket

  /** Where the task that serves one connection is suspended; Crashed is an exception other than a disconnect. */
  datatype Phase = Announcing(id: int) | Receiving | Departing(id: int) | Gone | Crashed

  datatype Endpoint = Endpoint(room: string, phase: Phase)

  datatype Server = Server(sys: System, ends: map<Conn, Endpoint>)

  /** A frame with an object payload is relayed, and any other text frame without such a payload is skipped. */
  datatype Event =
    | Open(conn: Conn, room: string, id: int, targets: seq<Conn>)
    | Resume(conn: Conn)
    | Relay(conn: Conn, id: int, targets: seq<Conn>)
    | Skip(conn: Conn)
    | Crash(conn: Conn, cause: Cause)
    | Hangup(conn: Conn, id: int, targets: seq<Conn>)
    | Return(id: int, ok: bool)

  /** The manager's atomic blocks that an event runs through without a pause. */
  ghost function Blocks(v: Server, e: Event): seq<Action>
    requires e.Relay? || e.Hangup? ==> e.conn in v.ends
  {
    match e
    case Open(c, room, id, targets) => [Connect(room, c), Start(id, room, targets)]
    case Relay(c, id, targets) => [Start(id, v.ends[c].room, targets)]
    case Hangup(c, id, targets) => [Disconnect(v.ends[c].room, c), Start(id, v.ends[c].room, targets)]
    case Return(id, ok) => [Send(id, ok)]
    case _ => []
  }

  predicate HasFailed(log: seq<Attempt>, c: Conn) {
    exists i :: 0 <= i < |log| && log[i].conn == c && !log[i].ok
  }

  ghost predicate Possible(v: Server, e: Event) {
    && (match e
        case Open(c, _, _, _) => c !in v.ends
        case Resume(c) => c in v.ends && (v.ends[c].phase.Announcing? || v.ends[c].phase.Departing?)
                          && v.ends[c].phase.id in v.sys.done
        case Return(_, _) => true
        case _ => e.conn in v.ends && v.ends[e.conn].phase == Receiving)
    && (e.Crash? && e.cause.ClosedSocket? ==> HasFailed(v.sys.log, e.conn))
    && Runs(v.sys, Blocks(v, e))
  }

  ghost function Serve(v: Server, e: Event): Server
    requires Possible(v, e)
  {
    var sys := Final(v.sys, Blocks(v, e));
    match e
    case Open(c, room, id, _) => Server(sys, v.ends[c := Endpoint(room, Announcing(id))])
    case Resume(c) =>
      var next := if v.ends[c].phase.Announcing? then Receiving else Gone;
      Server(sys, v.ends[c := v.ends[c].(phase := next)])
    case Relay(c, id, _) => Server(sys, v.ends[c := v.ends[c].(phase := Announcing(id))])
    case Skip(_) => Server(sys, v.ends)
    case Crash(c, _) => Server(sys, v.ends[c := v.ends[c].(phase := Crashed)])
    case Hangup(c, id, _) => Server(sys, v.ends[c := v.ends[c].(phase := Departing(id))])
    case Return(_, _) => Server(sys, v.ends)
  }

  /** Only connections whose endpoint still serves them, or crashed, are in a room, and only in their own. */
  ghost predicate MembersAreServed(v: Server) {
    forall room, c :: c in Members(v.sys.rooms, room) ==>
      c in v.ends && v.ends[c].room == room && !v.ends[c].phase.Departing? && !v.ends[c].phase.Gone?
  }

  /** A connection is in a room after a run only if it was before, or the run connected it. */
  lemma {:induction false} MembersComeFromConnects(s: System, actions: seq<Action>, room: string, c: Conn)
    requires Invariant(s) && Runs(s, actions) && c in Members(Final(s, actions).rooms, room)
    ensures c in Members(s.rooms, room) || Connect(room, c) in actions
    decreases |actions|
  {
    if actions != [] {
      var t := Apply(s, actions[0]);
      StepOnMembers(s, actions[0], room);
      StepKeepsInvariant(s, actions[0]);
      MembersComeFromConnects(t, actions[1..], room, c);
      assert actions == [actions[0]] + actions[1..];
    }
  }

  /** Who an event leaves in a room was there before or has just joined, and did not hang up. */
  lemma ServedMember(v: Server, e: Event, room: string, c: Conn)
    requires Invariant(v.sys) && Possible(v, e) && c in Members(Serve(v, e).sys.rooms, room)
    ensures c in Members(v.sys.rooms, room) || (e.Open? && e.room == room && e.conn == c)
    ensures e.Hangup? && e.conn == c ==> v.ends[c].room != room
  {
    var blocks := Blocks(v, e);
    MembersComeFromConnects(v.sys, blocks, room, c);
    if e.Hangup? {
      StepKeepsInvariant(v.sys, blocks[0]);
      StepOnMembers(v.sys, blocks[0], room);
      MembersComeFromConnects(Apply(v.sys, blocks[0]), blocks[1..], room, c);
    }
  }

  lemma ServingKeepsMembers(v: Server, e: Event)
    requires Invariant(v.sys) && MembersAreServed(v) && Possible(v, e)
    ensures Invariant(Serve(v, e).sys) && MembersAreServed(Serve(v, e))
  {
    InvariantAlways(v.sys, Blocks(v, e));
    var w := Serve(v, e);
    forall room, c | c in Members(w.sys.rooms, room)
      ensures c in w.ends && w.ends[c].room == room && !w.ends[c].phase.Departing? && !w.ends[c].phase.Gone?
    {
      ServedMember(v, e, room, c);
    }
  }

  /** Whom an event of an endpoint is announced to: everybody in its room, a joiner included and a leaver not. */
  ghost function Audience(v: Server, e: Event): set<Conn>
    requires e.Relay? || e.Hangup? ==> e.conn in v.ends
  {
    match e
    case Open(c, room, _, _) => Members(v.sys.rooms, room) + {c}
    case Relay(c, _, _) => Members(v.sys.rooms, v.ends[c].room)
    case Hangup(c, _, _) => Members(v.sys.rooms, v.ends[c].room) - {c}
    case _ => {}
  }

  /** A joining, relaying or leaving endpoint starts a broadcast in its own room, to exactly those who are to hear of
      it, and waits for it. */
  lemma AnnouncingEffects(v: Server, e: Event)
    requires Invariant(v.sys) && MembersAreServed(v) && Possible(v, e) && (e.Open? || e.Relay? || e.Hangup?)
    ensures var w := Serve(v, e);
      && e.conn in w.ends && w.ends[e.conn].room == (if e.Open? then e.room else v.ends[e.conn].room)
      && w.ends[e.conn].phase == (if e.Hangup? then Departing(e.id) else Announcing(e.id))
      && e.id !in v.sys.active && e.id !in v.sys.done && w.sys.log == v.sys.log
      && LaunchedFor(w.sys, e.id, w.ends[e.conn].room, Audience(v, e))
      && Members(w.sys.rooms, w.ends[e.conn].room) == Audience(v, e)
      && (forall c :: c in v.ends && c != e.conn ==> c in w.ends && w.ends[c] == v.ends[c])
  {
    match e
    case Open(c, room, id, targets) =>
      OneBlock(v.sys, Connect(room, c), [Start(id, room, targets)]);
      StartOnly(Apply(v.sys, Connect(room, c)), Start(id, room, targets));
    case Relay(c, id, targets) => StartOnly(v.sys, Start(id, v.ends[c].room, targets));
    case Hangup(c, id, targets) =>
      OneBlock(v.sys, Disconnect(v.ends[c].room, c), [Start(id, v.ends[c].room, targets)]);
      StartOnly(Apply(v.sys, Disconnect(v.ends[c].room, c)), Start(id, v.ends[c].room, targets));
  }

  /** A send that returns is logged with its outcome, and no other event touches the rooms. An announced endpoint
      goes on to receive, a departing one is gone, and a crashed one is crashed. */
  lemma QuietEffects(v: Server, e: Event)
    requires Possible(v, e) && !e.Open? && !e.Relay? && !e.Hangup?
    ensures var w := Serve(v, e);
      && (e.Return? ==>
            && e.id in v.sys.active && w.ends == v.ends
            && var b := v.sys.active[e.id]; w.sys.log == v.sys.log + [Attempt(e.id, b.targets[b.sent], e.ok)])
      && (!e.Return? ==> w.sys == v.sys && e.conn in v.ends && w.ends == v.ends[e.conn := w.ends[e.conn]]
                         && w.ends[e.conn].room == v.ends[e.conn].room)
      && (e.Resume? && v.ends[e.conn].phase.Announcing? ==> w.ends[e.conn].phase == Receiving)
      && (e.Resume? && v.ends[e.conn].phase.Departing? ==> w.ends[e.conn].phase == Gone)
      && (e.Skip? ==> w.ends == v.ends)
      && (e.Crash? ==> w.ends[e.conn].phase == Crashed)
  {
    if e.Return? {
      assert [Send(e.id, e.ok)] + [] == [Send(e.id, e.ok)];
      OneBlock(v.sys, Send(e.id, e.ok), []);
    }
  }

  lemma OneBlock(s: System, a: Action, rest: seq<Action>)
    requires Runs(s, [a] + rest)
    ensures Enabled(s, a) && Runs(Apply(s, a), rest) && Final(s, [a] + rest) == Final(Apply(s, a), rest)
  {
    assert ([a] + rest)[1..] == rest;
  }

  lemma StartOnly(s: System, a: Action)
    requires NoEmptyRoom(s.rooms) && a.Start? && Runs(s, [a])
    ensures Final(s, [a]) == Apply(s, a) && Enabled(s, a)
    ensures LaunchedFor(Apply(s, a), a.id, a.room, Members(s.rooms, a.room))
    ensures Members(Apply(s, a).rooms, a.room) == Members(s.rooms, a.room) && Apply(s, a).log == s.log
  {
    OneBlock(s, a, []);
    assert [a] + [] == [a];
  }

  ghost predicate Serves(v: Server, events: seq<Event>)
    decreases |events|
  {
    events == [] || (Possible(v, events[0]) && Serves(Serve(v, events[0]), events[1..]))
  }

  ghost function Served(v: Server, events: seq<Event>): Server
    requires Serves(v, events)
    decreases |events|
  {
    if events == [] then v else Served(Serve(v, events[0]), events[1..])
  }

  /** Over every run of the server, a connection that hung up is in no room again. */
  lemma {:induction false} DepartedNeverReturns(v: Server, events: seq<Event>)
    requires Invariant(v.sys) && MembersAreServed(v) && Serves(v, events)
    ensures Invariant(Served(v, events).sys) && MembersAreServed(Served(v, events))
    ensures forall c :: c in v.ends && (v.ends[c].phase.Departing? || v.ends[c].phase.Gone?) ==>
      forall room :: c !in Members(Served(v, events).sys.rooms, room)
    decreases |events|
  {
    if events != [] {
      var next := Serve(v, events[0]);
      ServingKeepsMembers(v, events[0]);
      DepartedNeverReturns(next, events[1..]);
      assert forall c :: c in v.ends && (v.ends[c].phase.Departing? || v.ends[c].phase.Gone?) ==>
        c in next.ends && (next.ends[c].phase.Departing? || next.ends[c].phase.Gone?);
    }
  }

  lemma {:induction false} ServedStays(v: Server, events: seq<Event>, id: int, room: string, targets: seq<Conn>)
    requires Invariant(v.sys) && MembersAreServed(v) && Serves(v, events) && Launched(v.sys, id, room, targets)
    ensures Invariant(Served(v, events).sys) && Launched(Served(v, events).sys, id, room, targets)
    decreases |events|
  {
    if events != [] {
      ServingKeepsMembers(v, events[0]);
      LaunchedStays(v.sys, Blocks(v, events[0]), id, room, targets);
      ServedStays(Serve(v, events[0]), events[1..], id, room, targets);
    }
  }

  lemma {:induction false} SplitServed(v: Server, before: seq<Event>, rest: seq<Event>)
    requires Invariant(v.sys) && MembersAreServed(v) && Serves(v, before + rest)
    ensures Serves(v, before) && Serves(Served(v, before), rest)
    ensures Served(v, before + rest) == Served(Served(v, before), rest)
    ensures Invariant(Served(v, before).sys) && MembersAreServed(Served(v, before))
    decreases |before|
  {
    if before == [] {
      assert before + rest == rest;
    } else {
      assert (before + rest)[1..] == before[1..] + rest;
      ServingKeepsMembers(v, before[0]);
      SplitServed(Serve(v, before[0]), before[1..], rest);
    }
  }

  /** A run of the server around one of its events. */
  lemma ServedAround(before: seq<Event>, e: Event, after: seq<Event>)
    requires Serves(Server(INITIAL, map[]), before + ([e] + after))
    ensures var start := Server(INITIAL, map[]);
      && Serves(start, before)
      && var v := Served(start, before);
         && Invariant(v.sys) && MembersAreServed(v) && Possible(v, e) && Serves(Serve(v, e), after)
         && Invariant(Serve(v, e).sys) && MembersAreServed(Serve(v, e))
         && Served(start, before + ([e] + after)) == Served(Serve(v, e), after)
  {
    SplitServed(Server(INITIAL, map[]), before, [e] + after);
    assert ([e] + after)[1..] == after;
    ServingKeepsMembers(Served(Server(INITIAL, map[]), before), e);
  }

  /** A message stays in its room: over every run of the server, the broadcast that a joining, relaying or leaving
      connection starts attempts, in the end or so far, nobody but those who are in the connection's own room at that
      time, each once, and in the end all of them. */
  lemma MessagesStayInTheirRoom(before: seq<Event>, e: Event, after: seq<Event>)
    requires Serves(Server(INITIAL, map[]), before + ([e] + after)) && (e.Open? || e.Relay? || e.Hangup?)
    ensures Serves(Server(INITIAL, map[]), before)
    ensures var v, w := Served(Server(INITIAL, map[]), before), Served(Server(INITIAL, map[]), before + ([e] + after));
      && Possible(v, e) && Distinct(AttemptsOf(w.sys.log, e.id))
      && (forall c :: c in AttemptsOf(w.sys.log, e.id) ==> c in Audience(v, e))
      && (e.id in w.sys.done ==> forall c :: c in Audience(v, e) ==> c in AttemptsOf(w.sys.log, e.id))
  {
    ServedAround(before, e, after);
    AudienceIsReached(Served(Server(INITIAL, map[]), before), e, after);
  }

  lemma AudienceIsReached(v: Server, e: Event, after: seq<Event>)
    requires Invariant(v.sys) && MembersAreServed(v) && Possible(v, e) && Serves(Serve(v, e), after)
    requires e.Open? || e.Relay? || e.Hangup?
    ensures var log := Served(Serve(v, e), after).sys.log;
      && Distinct(AttemptsOf(log, e.id)) && (forall c :: c in AttemptsOf(log, e.id) ==> c in Audience(v, e))
      && (e.id in Served(Serve(v, e), after).sys.done ==>
            forall c :: c in Audience(v, e) ==> c in AttemptsOf(log, e.id))
  {
    AnnouncingEffects(v, e);
    ServingKeepsMembers(v, e);
    var u := Serve(v, e);
    var room := u.ends[e.conn].room;
    var b := if e.id in u.sys.active then u.sys.active[e.id] else u.sys.done[e.id];
    assert Launched(u.sys, e.id, room, b.targets) && Lists(b.targets, Audience(v, e));
    ServedStays(u, after, e.id, room, b.targets);
    LaunchedIsDelivered(Served(u, after).sys, e.id, room, b.targets);
  }

  /** The endpoint waits for this broadcast, or it has ended. */
  ghost predicate Awaits(v: Server, c: Conn, id: int) {
    && c in v.ends
    && (id in v.sys.done || ((v.ends[c].phase.Announcing? || v.ends[c].phase.Departing?) && v.ends[c].phase.id == id))
  }

  lemma {:induction false} DoneRuns(s: System, actions: seq<Action>, id: int)
    requires Runs(s, actions) && id in s.done
    ensures id in Final(s, actions).done
    decreases |actions|
  {
    if actions != [] {
      DoneRuns(Apply(s, actions[0]), actions[1..], id);
    }
  }

  lemma {:induction false} AwaitsUntilDone(v: Server, events: seq<Event>, c: Conn, id: int)
    requires Invariant(v.sys) && MembersAreServed(v) && Serves(v, events) && Awaits(v, c, id)
    ensures Awaits(Served(v, events), c, id)
    decreases |events|
  {
    if events != [] {
      if id in v.sys.done {
        DoneRuns(v.sys, Blocks(v, events[0]), id);
      }
      ServingKeepsMembers(v, events[0]);
      AwaitsUntilDone(Serve(v, events[0]), events[1..], c, id);
    }
  }

  /** An endpoint does one thing after the other: when it relays, skips, crashes or hangs up, the broadcast of every
      earlier joining or relaying of its connection has ended, whatever the other endpoints do in between; and when it
      crashes on a closed socket, a send to it has failed. */
  lemma OneAtATime(before: seq<Event>, e: Event, mid: seq<Event>, f: Event)
    requires Serves(Server(INITIAL, map[]), (before + ([e] + mid)) + ([f] + [])) && (e.Open? || e.Relay?)
    requires (f.Relay? || f.Skip? || f.Crash? || f.Hangup?) && f.conn == e.conn
    ensures Serves(Server(INITIAL, map[]), before + ([e] + mid))
    ensures var v := Served(Server(INITIAL, map[]), before + ([e] + mid));
      && e.id in v.sys.done && AttemptsOf(v.sys.log, e.id) == v.sys.done[e.id].targets
      && (f.Crash? && f.cause.ClosedSocket? ==> exists a :: a in v.sys.log && a.conn == f.conn && !a.ok)
  {
    ServedAround(before + ([e] + mid), f, []);
    ServedAround(before, e, mid);
    var u, v := Served(Server(INITIAL, map[]), before), Served(Server(INITIAL, map[]), before + ([e] + mid));
    AnnouncingEffects(u, e);
    AwaitsUntilDone(Serve(u, e), mid, e.conn, e.id);
    WaitingIsOver(v, f, e.id);
  }

  lemma WaitingIsOver(v: Server, f: Event, id: int)
    requires Invariant(v.sys) && Possible(v, f) && (f.Relay? || f.Skip? || f.Crash? || f.Hangup?)
    requires Awaits(v, f.conn, id)
    ensures id in v.sys.done && AttemptsOf(v.sys.log, id) == v.sys.done[id].targets
    ensures f.Crash? && f.cause.ClosedSocket? ==> exists a :: a in v.sys.log && a.conn == f.conn && !a.ok
  {
    DoneIsAttempted(v.sys, id);
  }

  /** An endpoint that ends has left its room exactly when it ended by a disconnect or its connection had been dropped
      already: any other exception ends it too, but with its connection still in the room. */
  lemma EndpointLeavesIffDisconnected(v: Server, e: Event)
    requires Invariant(v.sys) && MembersAreServed(v) && Possible(v, e) && (e.Hangup? || e.Crash?)
    ensures var room := v.ends[e.conn].room;
      e.conn !in Members(Serve(v, e).sys.rooms, room) <==> e.Hangup? || e.conn !in Members(v.sys.rooms, room)
  {
    ServingKeepsMembers(v, e);
    var w := Serve(v, e);
    assert if e.Hangup? then w.ends[e.conn].phase.Departing? else w.sys == v.sys;
  }

  lemma CrashedServe(v: Server, e: Event, c: Conn)
    requires Invariant(v.sys) && Possible(v, e) && c in v.ends && v.ends[c].phase.Crashed?
    ensures var w, room := Serve(v, e), v.ends[c].room;
      && c in w.ends && w.ends[c] == v.ends[c] && Remembers(v.sys, w.sys)
      && (c in Members(w.sys.rooms, room) <==> c in Members(v.sys.rooms, room) && !Dropped(v.sys, w.sys, room, c))
  {
    LeavesIffDropped(v.sys, Blocks(v, e), v.ends[c].room, c);
  }

  /** How long the connection of a crashed endpoint stays in its room: over every run of the server, until a broadcast
      of that room ends in which its send failed, and no longer. */
  lemma {:induction false} CrashedStaysUntilDropped(v: Server, events: seq<Event>, c: Conn)
    requires Invariant(v.sys) && MembersAreServed(v) && Serves(v, events)
    requires c in v.ends && v.ends[c].phase.Crashed?
    ensures var f, room := Served(v, events), v.ends[c].room;
      && Remembers(v.sys, f.sys)
      && (c in Members(f.sys.rooms, room) <==> c in Members(v.sys.rooms, room) && !Dropped(v.sys, f.sys, room, c))
    decreases |events|
  {
    if events != [] {
      var next := Serve(v, events[0]);
      ServingKeepsMembers(v, events[0]);
      CrashedServe(v, events[0], c);
      CrashedStaysUntilDropped(next, events[1..], c);
      DroppedBetween(v.sys, next.sys, Served(v, events).sys, v.ends[c].room, c);
    }
  }

  /** The server after somebody has joined an empty server and while the others are being told. */
  lemma JoinAlone(c: Conn, room: string) returns (v: Server)
    ensures var e := Open(c, room, 0, [c]);
      Possible(Server(INITIAL, map[]), e) && v == Serve(Server(INITIAL, map[]), e)
    ensures v == Server(INITIAL.(rooms := map[room := {c}], active := map[0 := Broadcast(room, [c], 0, {})]),
                        map[c := Endpoint(room, Announcing(0))])
  {
    var joined := INITIAL.(rooms := map[room := {c}]);
    assert {} + {c} == {c};
    assert Apply(INITIAL, Connect(room, c)) == joined;
    var blocks := [Connect(room, c), Start(0, room, [c])];
    assert blocks[1..] == [Start(0, room, [c])] && blocks[1..][1..] == [];
    assert Final(joined, blocks[1..]) == Apply(joined, blocks[1]);
    v := Serve(Server(INITIAL, map[]), Open(c, room, 0, [c]));
  }

  lemma ReturnAlone(v: Server, c: Conn, room: string) returns (w: Server)
    requires v == Server(INITIAL.(rooms := map[room := {c}], active := map[0 := Broadcast(room, [c], 0, {})]),
                         map[c := Endpoint(room, Announcing(0))])
    ensures Possible(v, Return(0, true)) && w == Serve(v, Return(0, true))
    ensures w.ends == v.ends && 0 in w.sys.done && Members(w.sys.rooms, room) == {c}
  {
    assert [Send(0, true)][1..] == [];
    w := Serve(v, Return(0, true));
    assert {c} - {} == {c};
  }

  /** Somebody joins, is announced to the room, and sends a frame whose payload is not an object: the endpoint is gone,
      and its connection is in the room. */
  lemma CrashLeavesMember(c: Conn, room: string)
    ensures var v := Server(INITIAL, map[]);
      var events := [Open(c, room, 0, [c]), Return(0, true), Resume(c), Crash(c, BadPayload)];
      && Serves(v, events) && c in Served(v, events).ends
      && Served(v, events).ends[c].phase.Crashed? && c in Members(Served(v, events).sys.rooms, room)
  {
    var v1 := JoinAlone(c, room);
    var v2 := ReturnAlone(v1, c, room);
    var v3 := Serve(v2, Resume(c));
    var v4 := Serve(v3, Crash(c, BadPayload));
    var events := [Open(c, room, 0, [c]), Return(0, true), Resume(c), Crash(c, BadPayload)];
    assert events[1..] == [Return(0, true), Resume(c), Crash(c, BadPayload)];
    assert events[1..][1..] == [Resume(c), Crash(c, BadPayload)];
    assert events[1..][1..][1..] == [Crash(c, BadPayload)];
    assert events[1..][1..][1..][1..] == [];
    assert Serves(v3, [Crash(c, BadPayload)]) && Served(v3, [Crash(c, BadPayload)]) == v4;
    assert Serves(v2, events[1..][1..]) && Served(v2, events[1..][1..]) == v4;
    assert Serves(v1, events[1..]) && Served(v1, events[1..]) == v4;
  }
}
