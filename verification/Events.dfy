/** The event bus, whose publish loop walks the live subscriber list while callbacks may change it. */
module Events {
  import opened Collections

  /** Callbacks are compared by identity, here a number. */
  type Callback = int

  type Table = map<string, seq<Callback>>

  function Subscribers(table: Table, event: string): seq<Callback> {
    if event in table then table[event] else []
  }

  /** list.remove: drops the first occurrence, if there is one. */
  function RemoveFirst(list: seq<Callback>, c: Callback): (r: seq<Callback>)
    ensures |r| == |list| - if c in list then 1 else 0
  {
    if list == [] then []
    else if list[0] == c then list[1..]
    else [list[0]] + RemoveFirst(list[1..], c)
  }

  /** What a callback does to the subscribers of the event it is called for. */
  datatype Effect = Off(c: Callback) | On(c: Callback)

  function Apply(list: seq<Callback>, e: Effect): seq<Callback> {
    match e
    case Off(c) => RemoveFirst(list, c)
    case On(c) => list + [c]
  }

  function ApplyAll(list: seq<Callback>, es: seq<Effect>): seq<Callback>
    decreases |es|
  {
    if es == [] then list else ApplyAll(Apply(list, es[0]), es[1..])
  }

  type Effects = map<Callback, seq<Effect>>

  function Reactions(effects: Effects, c: Callback): seq<Effect> {
    if c in effects then effects[c] else []
  }

  /** A publish: who has been called, who is subscribed, and whether the loop is over. */
  datatype Progress = Progress(called: seq<Callback>, list: seq<Callback>, ended: bool)

  /** The first n calls of a publish from position i of the live list on. A callback that raises is still called, and
      the loop goes on. */
  function Publishing(list: seq<Callback>, i: nat, effects: Effects, n: nat): Progress
    decreases n
  {
    if i >= |list| then Progress([], list, true)
    else if n == 0 then Progress([], list, false)
    else
      var rest := Publishing(ApplyAll(list, Reactions(effects, list[i])), i + 1, effects, n - 1);
      rest.(called := [list[i]] + rest.called)
  }

  class EventBus {
    var table: Table

    constructor ()
      ensures table == map[]
    {
      table := map[];
    }

    method Subscribe(event: string, c: Callback)
      modifies this
      ensures table == old(table)[event := Subscribers(old(table), event) + [c]]
    {
      if event !in table {
        table := table[event := []];
      }
      table := table[event := table[event] + [c]];
    }

    method Unsubscribe(event: string, c: Callback)
      modifies this
      ensures table == if event !in old(table) then old(table)
                       else old(table)[event := RemoveFirst(old(table)[event], c)]
    {
      if event in table {
        table := table[event := RemoveFirst(table[event], c)];
      }
    }

    /** What a called callback does to its event's subscribers. */
    method React(event: string, es: seq<Effect>)
      modifies this
      ensures Subscribers(table, event) == ApplyAll(Subscribers(old(table), event), es)
      ensures forall other :: other != event ==> Subscribers(table, other) == Subscribers(old(table), other)
    {
      for k := 0 to |es|
        invariant ApplyAll(Subscribers(table, event), es[k..]) == ApplyAll(Subscribers(old(table), event), es)
        invariant forall other :: other != event ==> Subscribers(table, other) == Subscribers(old(table), other)
      {
        assert es[k..][1..] == es[k + 1..];
        match es[k] {
          case On(c) => Subscribe(event, c);
          case Off(c) => Unsubscribe(event, c);
        }
      }
    }

    /** The first n calls of a publish: the loop over the live list, whose callbacks react as `effects` says. */
    method Publish(event: string, effects: Effects, n: nat) returns (called: seq<Callback>, ended: bool)
      modifies this
      ensures Progress(called, Subscribers(table, event), ended)
              == Publishing(Subscribers(old(table), event), 0, effects, n)
      ensures forall other :: other != event ==> Subscribers(table, other) == Subscribers(old(table), other)
    {
      called := [];
      var i := 0;
      ghost var all := Publishing(Subscribers(table, event), 0, effects, n);
      while i < n && i < |Subscribers(table, event)|
        invariant i <= n
        invariant Continues(all, called, Subscribers(table, event), i, effects, n - i)
        invariant forall other :: other != event ==> Subscribers(table, other) == Subscribers(old(table), other)
        decreases n - i
      {
        var c := Subscribers(table, event)[i];
        OneMoreCall(all, called, Subscribers(table, event), i, effects, n - i);
        React(event, Reactions(effects, c));
        called, i := called + [c], i + 1;
      }
      ended := i >= |Subscribers(table, event)|;
      assert Publishing(Subscribers(table, event), i, effects, n - i) == Progress([], Subscribers(table, event), ended);
    }
  }

  /** What remains of a publish after some calls. */
  ghost predicate Continues(all: Progress, called: seq<Callback>, list: seq<Callback>, i: nat, effects: Effects, n: nat)
  {
    var rest := Publishing(list, i, effects, n);
    all.called == called + rest.called && all.list == rest.list && all.ended == rest.ended
  }

  lemma OneMoreCall(all: Progress, called: seq<Callback>, list: seq<Callback>, i: nat, effects: Effects, n: nat)
    requires i < |list| && n > 0 && Continues(all, called, list, i, effects, n)
    ensures Continues(all, called + [list[i]], ApplyAll(list, Reactions(effects, list[i])), i + 1, effects, n - 1)
  {
    var rest := Publishing(ApplyAll(list, Reactions(effects, list[i])), i + 1, effects, n - 1);
    Associative(called, [list[i]], rest.called);
  }

  /** Unsubscribing undoes the subscription of a callback that was not subscribed before. */
  lemma {:induction false} UnsubscribeUndoes(list: seq<Callback>, c: Callback)
    requires c !in list
    ensures RemoveFirst(list + [c], c) == list
  {
    if list != [] {
      assert (list + [c])[1..] == list[1..] + [c];
      UnsubscribeUndoes(list[1..], c);
    }
  }

  // ---------- Callbacks that unsubscribe ----------

  ghost predicate OnlyUnsubscribe(effects: Effects) {
    forall c, k :: c in effects && 0 <= k < |effects[c]| ==> effects[c][k].Off?
  }

  ghost predicate Offs(es: seq<Effect>) { forall k :: 0 <= k < |es| ==> es[k].Off? }

  lemma {:induction false} OffsShrink(list: seq<Callback>, es: seq<Effect>)
    requires Offs(es)
    ensures |ApplyAll(list, es)| <= |list|
    ensures ApplyAll(list, es) == list <==> forall k :: 0 <= k < |es| ==> es[k].c !in list
    ensures ApplyAll(list, es) != list ==> |ApplyAll(list, es)| < |list|
    decreases |es|
  {
    if es != [] {
      var rest := RemoveFirst(list, es[0].c);
      assert forall k :: 0 <= k < |es| - 1 ==> es[1..][k] == es[k + 1];
      OffsShrink(rest, es[1..]);
      if es[0].c !in list {
        NotThere(list, es[0].c);
      }
    }
  }

  lemma {:induction false} NotThere(list: seq<Callback>, c: Callback)
    requires c !in list
    ensures RemoveFirst(list, c) == list
  {
    if list != [] {
      NotThere(list[1..], c);
    }
  }

  lemma {:induction false} CalledAtMost(list: seq<Callback>, i: nat, effects: Effects, n: nat)
    requires OnlyUnsubscribe(effects) && i <= |list| <= i + n
    ensures Publishing(list, i, effects, n).ended && |Publishing(list, i, effects, n).called| <= |list| - i
    decreases n
  {
    if i < |list| {
      var live := ApplyAll(list, Reactions(effects, list[i]));
      OffsShrink(list, Reactions(effects, list[i]));
      if i + 1 <= |live| {
        CalledAtMost(live, i + 1, effects, n - 1);
      }
    }
  }

  /** No subscriber from position i on, except perhaps the last one, unsubscribes a subscriber. */
  predicate Harmless(list: seq<Callback>, i: nat, effects: Effects)
    decreases |list| - i
  {
    i >= |list| - 1 || (ApplyAll(list, Reactions(effects, list[i])) == list && Harmless(list, i + 1, effects))
  }

  lemma {:induction false} HarmlessAll(list: seq<Callback>, i: nat, effects: Effects)
    ensures Harmless(list, i, effects)
            <==> forall k :: i <= k < |list| - 1 ==> ApplyAll(list, Reactions(effects, list[k])) == list
    decreases |list| - i
  {
    if i < |list| - 1 {
      HarmlessAll(list, i + 1, effects);
    }
  }

  lemma {:induction false} AllCalledFrom(list: seq<Callback>, i: nat, effects: Effects, n: nat)
    requires OnlyUnsubscribe(effects) && i <= |list| <= i + n
    ensures Publishing(list, i, effects, n).called == list[i..] <==> Harmless(list, i, effects)
    decreases n
  {
    if i < |list| {
      var live := ApplyAll(list, Reactions(effects, list[i]));
      if live == list {
        AllCalledFrom(list, i + 1, effects, n - 1);
        HarmlessCall(list, i, effects, n);
      } else {
        FewerCalled(list, i, effects, n);
      }
    } else {
      assert list[i..] == [] && Publishing(list, i, effects, n).called == [];
    }
  }

  lemma HarmlessCall(list: seq<Callback>, i: nat, effects: Effects, n: nat)
    requires i < |list| && n > 0 && ApplyAll(list, Reactions(effects, list[i])) == list
    ensures Publishing(list, i, effects, n).called == list[i..]
            <==> Publishing(list, i + 1, effects, n - 1).called == list[i + 1..]
    ensures Harmless(list, i, effects) <==> Harmless(list, i + 1, effects)
  {
    assert list[i..] == [list[i]] + list[i + 1..];
    OneCalled(list[i], Publishing(list, i + 1, effects, n - 1).called, list[i + 1..]);
  }

  lemma OneCalled(c: Callback, s: seq<Callback>, t: seq<Callback>)
    ensures [c] + s == [c] + t <==> s == t
  {
    assert ([c] + s)[1..] == s && ([c] + t)[1..] == t;
  }

  /** A callback that unsubscribes somebody makes the call list too short, unless it is the last. */
  lemma FewerCalled(list: seq<Callback>, i: nat, effects: Effects, n: nat)
    requires OnlyUnsubscribe(effects) && i < |list| <= i + n
    requires ApplyAll(list, Reactions(effects, list[i])) != list
    ensures Publishing(list, i, effects, n).called == list[i..] <==> i == |list| - 1
    ensures Harmless(list, i, effects) <==> i == |list| - 1
  {
    var live := ApplyAll(list, Reactions(effects, list[i]));
    OffsShrink(list, Reactions(effects, list[i]));
    if i + 1 <= |live| {
      CalledAtMost(live, i + 1, effects, n - 1);
    } else {
      assert Publishing(live, i + 1, effects, n - 1).called == [];
    }
  }

  /** If callbacks only unsubscribe, a publish ends, and calls every subscriber, once and in order, exactly when no
      subscriber but the last unsubscribes a subscriber: one that unsubscribes itself makes the loop skip the next. */
  lemma PublishReachesAll(list: seq<Callback>, effects: Effects, n: nat)
    requires OnlyUnsubscribe(effects) && n >= |list|
    ensures var p := Publishing(list, 0, effects, n);
      && p.ended
      && (p.called == list
          <==> forall k, c :: 0 <= k < |list| - 1 && Off(c) in Reactions(effects, list[k]) ==> c !in list)
  {
    CalledAtMost(list, 0, effects, n);
    AllCalledFrom(list, 0, effects, n);
    HarmlessAll(list, 0, effects);
    assert list[0..] == list;
    forall k | 0 <= k < |list|
      ensures ApplyAll(list, Reactions(effects, list[k])) == list
              <==> forall c :: Off(c) in Reactions(effects, list[k]) ==> c !in list
    {
      OffsShrink(list, Reactions(effects, list[k]));
      OffsOf(list, Reactions(effects, list[k]));
    }
  }

  lemma OffsOf(list: seq<Callback>, es: seq<Effect>)
    requires Offs(es)
    ensures (forall k :: 0 <= k < |es| ==> es[k].c !in list) <==> (forall c :: Off(c) in es ==> c !in list)
  {
    forall k | 0 <= k < |es| ensures Off(es[k].c) in es {
      assert es[k] == Off(es[k].c);
    }
  }

  /** The first of two subscribers unsubscribes itself, and the second is not called. */
  lemma SubscriberIsSkipped(first: Callback, second: Callback)
    requires first != second
    ensures Publishing([first, second], 0, map[first := [Off(first)]], 2) == Progress([first], [second], true)
  {
    var effects: Effects := map[first := [Off(first)]];
    assert RemoveFirst([first, second], first) == [second];
    assert [Off(first)][1..] == [] && ApplyAll([second], []) == [second];
    assert ApplyAll([first, second], [Off(first)]) == [second];
    assert Publishing([second], 1, effects, 1) == Progress([], [second], true);
  }

  // ---------- Callbacks that subscribe ----------

  ghost predicate OnlySubscribe(effects: Effects) {
    forall c, k :: c in effects && 0 <= k < |effects[c]| ==> effects[c][k].On?
  }

  lemma {:induction false} OnsAppend(list: seq<Callback>, es: seq<Effect>) returns (more: seq<Callback>)
    requires forall k :: 0 <= k < |es| ==> es[k].On?
    ensures |more| == |es| && ApplyAll(list, es) == list + more
    ensures forall k :: 0 <= k < |es| ==> more[k] == es[k].c
    decreases |es|
  {
    if es == [] {
      more := [];
    } else {
      assert forall k :: 0 <= k < |es| - 1 ==> es[1..][k] == es[k + 1];
      var rest := OnsAppend(list + [es[0].c], es[1..]);
      more := [es[0].c] + rest;
      Associative(list, [es[0].c], rest);
    }
  }

  lemma SliceHead(s: seq<Callback>, i: nat, j: nat)
    requires i < j <= |s|
    ensures s[i..j] == [s[i]] + s[i + 1..j]
  {
  }

  /** If callbacks only subscribe, whoever is subscribed in the end has been called, once and in order: those that
      joined during the publish too. */
  lemma {:induction false} SubscribersJoinTheLoop(list: seq<Callback>, i: nat, effects: Effects, n: nat)
    requires OnlySubscribe(effects) && i <= |list|
    ensures var p := Publishing(list, i, effects, n);
      && list <= p.list && (p.ended ==> p.called == p.list[i..])
      && (!p.ended ==> |p.called| == n && i + n < |p.list| && p.called == p.list[i..i + n])
    decreases n
  {
    if i < |list| && n > 0 {
      var more := OnsAppend(list, Reactions(effects, list[i]));
      SubscribersJoinTheLoop(list + more, i + 1, effects, n - 1);
      JoinOne(list, more, i, n, Publishing(list + more, i + 1, effects, n - 1));
    }
  }

  /** One call more, given the progress after it. */
  lemma JoinOne(list: seq<Callback>, more: seq<Callback>, i: nat, n: nat, p: Progress)
    requires i < |list| && n > 0 && list + more <= p.list
    requires p.ended ==> p.called == p.list[i + 1..]
    requires !p.ended ==> |p.called| == n - 1 && i + n < |p.list| && p.called == p.list[i + 1..i + n]
    ensures list <= p.list && (p.ended ==> [list[i]] + p.called == p.list[i..])
    ensures !p.ended ==> [list[i]] + p.called == p.list[i..i + n]
  {
    assert p.list[i] == (list + more)[i] == list[i];
    if p.ended {
      SliceHead(p.list, i, |p.list|);
    } else {
      SliceHead(p.list, i, i + n);
    }
  }

  /** A subscriber that subscribes itself at every call keeps the loop going for ever. */
  lemma {:induction false} NeverEnds(list: seq<Callback>, i: nat, j: nat, effects: Effects, n: nat)
    requires OnlySubscribe(effects) && i <= j < |list| && On(list[j]) in Reactions(effects, list[j])
    ensures !Publishing(list, i, effects, n).ended && |Publishing(list, i, effects, n).called| == n
    decreases n
  {
    if n > 0 {
      var more := OnsAppend(list, Reactions(effects, list[i]));
      if i == j {
        var k :| 0 <= k < |Reactions(effects, list[j])| && Reactions(effects, list[j])[k] == On(list[j]);
        assert (list + more)[|list| + k] == list[j];
        NeverEnds(list + more, i + 1, |list| + k, effects, n - 1);
      } else {
        assert (list + more)[j] == list[j];
        NeverEnds(list + more, i + 1, j, effects, n - 1);
      }
    }
  }

  /** Unsubscribing takes out the first occurrence and leaves the others in their order. */
  lemma {:induction false} FirstIsRemoved(before: seq<Callback>, c: Callback, rest: seq<Callback>)
    requires c !in before
    ensures RemoveFirst(before + [c] + rest, c) == before + rest
  {
    var list := before + [c] + rest;
    if before == [] {
      assert list == [c] + rest && list[1..] == rest;
    } else {
      assert list[1..] == before[1..] + [c] + rest;
      FirstIsRemoved(before[1..], c, rest);
      assert [before[0]] + (before[1..] + rest) == before + rest;
    }
  }
}
