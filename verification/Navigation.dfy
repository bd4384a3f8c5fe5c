/** Browser-like history: two stacks, and the list with a cursor that they stand for. */
module Navigation {
  import opened Wrappers
  import opened Collections

  /** The last element of each stack is its top. */
  datatype Stacks = Stacks(back: seq<string>, forward: seq<string>)

  datatype Request = Visit(url: string) | Back(steps: int) | Forward(steps: int) | Clear | Current

  function Reverse(s: seq<string>): (r: seq<string>)
    ensures |r| == |s| && forall i :: 0 <= i < |s| ==> r[i] == s[|s| - 1 - i]
  {
    if s == [] then [] else Reverse(s[1..]) + [s[0]]
  }

  function CurrentUrl(s: Stacks): string
    requires s.back != []
  {
    s.back[|s.back| - 1]
  }

  /** Moves the top n elements of the first stack, one by one, onto the second. */
  function Shift(from: seq<string>, to: seq<string>, n: nat): (seq<string>, seq<string>)
    requires n <= |from|
  {
    (from[..|from| - n], to + Reverse(from[|from| - n..]))
  }

  predicate Moves(s: Stacks, r: Request)
    requires s.back != []
  {
    match r
    case Visit(url) => url != CurrentUrl(s)
    case Back(steps) => |s.back| > 1 && steps >= 1
    case Forward(steps) => s.forward != [] && steps >= 1
    case _ => false
  }

  /** The stacks after a request. */
  function Do(s: Stacks, r: Request): (t: Stacks)
    requires s.back != []
    ensures t.back != []
  {
    match r
    case Visit(url) => if Moves(s, r) then Stacks(s.back + [url], []) else s
    case Back(steps) =>
      if !Moves(s, r) then s
      else var (b, f) := Shift(s.back, s.forward, Min(steps, |s.back| - 1)); Stacks(b, f)
    case Forward(steps) =>
      if !Moves(s, r) then s
      else var (f, b) := Shift(s.forward, s.back, Min(steps, |s.forward|)); Stacks(b, f)
    case Clear => Stacks([CurrentUrl(s)], [])
    case Current => s
  }

  /** A back or forward request with nowhere to go is refused; everything else succeeds. */
  predicate Refused(s: Stacks, r: Request)
    requires s.back != []
  {
    (r.Back? || r.Forward?) && !Moves(s, r)
  }

  /** The result of a request: the state it reports, if it succeeds, and the URL of the event it publishes, if any. */
  datatype Result = Result(success: bool, state: Option<NavState>, event: Option<string>)

  datatype NavState = NavState(url: string, canGoBack: bool, canGoForward: bool,
                               prev: Option<string>, next: Option<string>,
                               backStack: seq<string>, forwardStack: seq<string>)

  function Report(s: Stacks): NavState
    requires s.back != []
  {
    NavState(CurrentUrl(s), |s.back| > 1, s.forward != [],
             if |s.back| > 1 then Some(s.back[|s.back| - 2]) else None,
             if s.forward != [] then Some(s.forward[|s.forward| - 1]) else None,
             s.back, Reverse(s.forward))
  }

  /** How often to move, as the caller gives it: not at all, as a number, or as something that is none. */
  datatype Steps = Default | Number(n: int) | NoNumber

  /** An action by its name, with the data that come with it. */
  datatype Message = Message(action: string, url: Option<string>, steps: Steps)

  datatype Meaning = Known(request: Request) | Unknown | Malformed

  /** What a message asks for: the root and one step if nothing is said. */
  function Asked(m: Message): Meaning {
    match m.action
    case "visit" => Known(Visit(if m.url.Some? then m.url.value else "/"))
    case "back" => (match m.steps
                    case Default => Known(Back(1)) case Number(n) => Known(Back(n)) case NoNumber => Malformed)
    case "forward" => (match m.steps
                       case Default => Known(Forward(1)) case Number(n) => Known(Forward(n)) case NoNumber => Malformed)
    case "clear" => Known(Clear)
    case "current" => Known(Current)
    case _ => Unknown
  }

  /** The messages that succeed: back and forward need a page on that side, and a number of steps to be positive. */
  predicate Granted(s: Stacks, m: Message) {
    || m.action in {"visit", "clear", "current"}
    || (m.action == "back" && |s.back| > 1 && !m.steps.NoNumber? && (m.steps.Number? ==> m.steps.n >= 1))
    || (m.action == "forward" && |s.forward| > 0 && !m.steps.NoNumber? && (m.steps.Number? ==> m.steps.n >= 1))
  }

  /** The stacks after a message: only what is understood changes them. */
  function Received(s: Stacks, m: Message): (t: Stacks)
    requires s.back != []
    ensures t.back != []
  {
    if Asked(m).Known? then Do(s, Asked(m).request) else s
  }

  class NavigationService {
    var back: seq<string>
    var forward: seq<string>

    function State(): Stacks
      reads this
    {
      Stacks(back, forward)
    }

    constructor (homepage: string)
      ensures State() == Stacks([homepage], [])
    {
      back, forward := [homepage], [];
    }

    /** One action of the service; `event` is the URL it publishes. */
    method Execute(r: Request) returns (result: Result)
      requires back != []
      modifies this
      ensures back != [] && State() == Do(old(State()), r)
      ensures result.success <==> !Refused(old(State()), r)
      ensures result.state == if result.success then Some(Report(State())) else None
      ensures result.event == if old(Moves(State(), r)) then Some(CurrentUrl(State())) else None
    {
      var event: Option<string> := None;
      match r {
        case Visit(url) =>
          if url != back[|back| - 1] {
            back, forward := back + [url], [];
            event := Some(url);
          }
        case Back(steps) =>
          if |back| <= 1 || steps < 1 {
            return Result(false, None, None);
          }
          GoBack(Min(steps, |back| - 1));
          event := Some(back[|back| - 1]);
        case Forward(steps) =>
          if forward == [] || steps < 1 {
            return Result(false, None, None);
          }
          GoForward(Min(steps, |forward|));
          event := Some(back[|back| - 1]);
        case Clear =>
          back, forward := [back[|back| - 1]], [];
        case Current =>
      }
      return Result(true, Some(Report(State())), event);
    }

    /** A request as it comes in; None is the exception for steps that are no number. */
    method Dispatch(m: Message) returns (result: Option<Result>)
      requires back != []
      modifies this
      ensures back != [] && State() == Received(old(State()), m)
      ensures result.None? <==> m.action in {"back", "forward"} && m.steps.NoNumber?
      ensures result.Some? ==> (result.value.success <==> Granted(old(State()), m))
      ensures Asked(m).Unknown? ==> result == Some(Result(false, None, None))
      ensures Asked(m).Known? ==>
        && result.Some? && (result.value.success <==> !Refused(old(State()), Asked(m).request))
        && result.value.event == if old(Moves(State(), Asked(m).request)) then Some(CurrentUrl(State())) else None
    {
      match Asked(m) {
        case Malformed => return None;
        case Unknown => return Some(Result(false, None, None));
        case Known(r) =>
          var known := Execute(r);
          return Some(known);
      }
    }

    method GoBack(steps: nat)
      requires steps < |back|
      modifies this
      ensures (back, forward) == Shift(old(back), old(forward), steps)
    {
      ShiftNone(back, forward);
      for i := 0 to steps
        invariant |back| == |old(back)| - i
        invariant (back, forward) == Shift(old(back), old(forward), i)
      {
        ShiftOneMore(old(back), old(forward), i);
        forward, back := forward + [back[|back| - 1]], back[..|back| - 1];
      }
    }

    method GoForward(steps: nat)
      requires steps <= |forward|
      modifies this
      ensures (forward, back) == Shift(old(forward), old(back), steps)
    {
      ShiftNone(forward, back);
      for i := 0 to steps
        invariant |forward| == |old(forward)| - i
        invariant (forward, back) == Shift(old(forward), old(back), i)
      {
        ShiftOneMore(old(forward), old(back), i);
        back, forward := back + [forward[|forward| - 1]], forward[..|forward| - 1];
      }
    }
  }

  lemma ShiftNone(from: seq<string>, to: seq<string>)
    ensures Shift(from, to, 0) == (from, to)
  {
    assert from[..|from|] == from && to + Reverse(from[|from|..]) == to;
  }

  lemma ShiftOneMore(from: seq<string>, to: seq<string>, n: nat)
    requires n < |from|
    ensures var (f, t) := Shift(from, to, n);
      Shift(from, to, n + 1) == (f[..|f| - 1], t + [f[|f| - 1]])
  {
    var k := |from| - n;
    assert from[k - 1..][1..] == from[k..];
    assert from[..k][..k - 1] == from[..k - 1];
    assert to + Reverse(from[k - 1..]) == to + Reverse(from[k..]) + [from[k - 1]];
  }

  // ---------- The list with a cursor ----------

  datatype History = History(urls: seq<string>, cursor: int)

  /** The history the two stacks stand for: the back stack, then the forward stack from its top. */
  function Abstract(s: Stacks): History {
    History(s.back + Reverse(s.forward), |s.back| - 1)
  }

  /** The reference: a visit truncates and appends, back and forward move the cursor and stop at the ends. */
  function Reference(h: History, r: Request): History
    requires 0 <= h.cursor < |h.urls|
  {
    match r
    case Visit(url) =>
      if url == h.urls[h.cursor] then h else History(h.urls[..h.cursor + 1] + [url], h.cursor + 1)
    case Back(steps) => h.(cursor := Max(0, h.cursor - Max(0, steps)))
    case Forward(steps) => h.(cursor := Min(|h.urls| - 1, h.cursor + Max(0, steps)))
    case Clear => History([h.urls[h.cursor]], 0)
    case Current => h
  }

  lemma StacksRefineHistory(s: Stacks, r: Request)
    requires s.back != []
    ensures Abstract(Do(s, r)) == Reference(Abstract(s), r)
  {
    match r
    case Visit(url) => VisitRefines(s, url);
    case Back(steps) => BackRefines(s, steps);
    case Forward(steps) => ForwardRefines(s, steps);
    case _ =>
  }

  lemma VisitRefines(s: Stacks, url: string)
    requires s.back != []
    ensures Abstract(Do(s, Visit(url))) == Reference(Abstract(s), Visit(url))
  {
    assert (s.back + Reverse(s.forward))[..|s.back|] == s.back;
    assert s.back + [url] + [] == s.back + [url];
  }

  lemma BackRefines(s: Stacks, steps: int)
    requires s.back != []
    ensures Abstract(Do(s, Back(steps))) == Reference(Abstract(s), Back(steps))
  {
    if Moves(s, Back(steps)) {
      ShiftKeepsUrls(s.back, s.forward, Min(steps, |s.back| - 1));
    }
  }

  lemma ForwardRefines(s: Stacks, steps: int)
    requires s.back != []
    ensures Abstract(Do(s, Forward(steps))) == Reference(Abstract(s), Forward(steps))
  {
    if Moves(s, Forward(steps)) {
      ShiftBackKeepsUrls(s.back, s.forward, Min(steps, |s.forward|));
    }
  }

  lemma ShiftKeepsUrls(back: seq<string>, forward: seq<string>, n: nat)
    requires n <= |back|
    ensures var (b, f) := Shift(back, forward, n); b + Reverse(f) == back + Reverse(forward)
  {
    var kept, moved := back[..|back| - n], back[|back| - n..];
    assert kept + moved == back;
    PartsKeepUrls(kept, moved, forward);
  }

  lemma PartsKeepUrls(kept: seq<string>, moved: seq<string>, forward: seq<string>)
    ensures kept + Reverse(forward + Reverse(moved)) == kept + moved + Reverse(forward)
  {
    ReverseOnto(forward, moved);
    Associative(kept, moved, Reverse(forward));
  }

  lemma ReverseOnto(s: seq<string>, t: seq<string>)
    ensures Reverse(s + Reverse(t)) == t + Reverse(s)
  {
    ReverseConcat(s, Reverse(t));
    ReverseTwice(t);
  }

  lemma ReverseTwice(s: seq<string>)
    ensures Reverse(Reverse(s)) == s
  {
    var r := Reverse(Reverse(s));
    forall i | 0 <= i < |s| ensures r[i] == s[i] {}
  }

  lemma ShiftBackKeepsUrls(back: seq<string>, forward: seq<string>, n: nat)
    requires n <= |forward|
    ensures var (f, b) := Shift(forward, back, n); b + Reverse(f) == back + Reverse(forward)
  {
    var k := |forward| - n;
    ReverseSplit(forward, k);
    Associative(back, Reverse(forward[k..]), Reverse(forward[..k]));
  }

  lemma ReverseSplit(s: seq<string>, k: nat)
    requires k <= |s|
    ensures Reverse(s) == Reverse(s[k..]) + Reverse(s[..k])
  {
    assert s == s[..k] + s[k..];
    ReverseConcat(s[..k], s[k..]);
  }

  lemma ReverseConcat(a: seq<string>, b: seq<string>)
    ensures Reverse(a + b) == Reverse(b) + Reverse(a)
  {
    var l, r := Reverse(a + b), Reverse(b) + Reverse(a);
    forall i | 0 <= i < |l| ensures l[i] == r[i] {}
  }

  /** What every message does to the history: "visit" truncates and appends the given URL or the root, "back" and
      "forward" move by the given number or by one and stop at the ends, "clear" keeps one entry, and everything else,
      steps that are no number included, changes nothing. */
  lemma MessagesMove(s: Stacks, m: Message)
    requires s.back != []
    ensures var h, t := Abstract(s), Abstract(Received(s, m));
      && (m.action == "visit" ==>
            var url := if m.url.Some? then m.url.value else "/";
            t == if url == h.urls[h.cursor] then h else History(h.urls[..h.cursor + 1] + [url], h.cursor + 1))
      && (m.action == "back" && m.steps.Default? ==>
            t.urls == h.urls && t.cursor == if h.cursor > 0 then h.cursor - 1 else 0)
      && (m.action == "back" && m.steps.Number? ==>
            && t.urls == h.urls
            && t.cursor == if m.steps.n < 1 then h.cursor else if m.steps.n < h.cursor then h.cursor - m.steps.n else 0)
      && (m.action == "forward" && m.steps.Default? ==>
            t.urls == h.urls && t.cursor == if h.cursor + 1 < |h.urls| then h.cursor + 1 else |h.urls| - 1)
      && (m.action == "forward" && m.steps.Number? ==>
            && t.urls == h.urls
            && t.cursor == if m.steps.n < 1 then h.cursor
                           else if h.cursor + m.steps.n < |h.urls| then h.cursor + m.steps.n else |h.urls| - 1)
      && (m.action == "clear" ==> t == History([h.urls[h.cursor]], 0))
      && (m.action in {"back", "forward"} && m.steps.NoNumber? ==> t == h)
      && (m.action !in {"visit", "back", "forward", "clear"} ==> t == h)
  {
    if Asked(m).Known? {
      StacksRefineHistory(s, Asked(m).request);
    }
  }

  /** What the service reports is the reference history around its cursor. */
  lemma ReportShowsHistory(s: Stacks)
    requires s.back != []
    ensures var h, r := Abstract(s), Report(s);
      && r.backStack + r.forwardStack == h.urls && |r.backStack| == h.cursor + 1
      && r.url == h.urls[h.cursor]
      && (r.canGoBack <==> h.cursor > 0) && (r.canGoForward <==> h.cursor < |h.urls| - 1)
      && r.prev == (if h.cursor > 0 then Some(h.urls[h.cursor - 1]) else None)
      && r.next == (if h.cursor < |h.urls| - 1 then Some(h.urls[h.cursor + 1]) else None)
  {
  }

  /** An event is published exactly for a visit, back or forward that changes the history, and a back or forward
      that does not change it is refused. */
  lemma EventsAreChanges(s: Stacks, r: Request)
    requires s.back != []
    ensures Moves(s, r) <==> !r.Clear? && Abstract(Do(s, r)) != Abstract(s)
    ensures Refused(s, r) <==> (r.Back? || r.Forward?) && Do(s, r) == s
  {
    StacksRefineHistory(s, r);
    assert Moves(s, r) ==> |Do(s, r).back| != |s.back|;
  }

  ghost predicate NoAdjacentEqual(urls: seq<string>) {
    forall i :: 0 <= i < |urls| - 1 ==> urls[i] != urls[i + 1]
  }

  function DoAll(s: Stacks, rs: seq<Request>): (t: Stacks)
    requires s.back != []
    ensures t.back != []
    decreases |rs|
  {
    if rs == [] then s else DoAll(Do(s, rs[0]), rs[1..])
  }

  function ReferenceAll(h: History, rs: seq<Request>): History
    requires 0 <= h.cursor < |h.urls|
    decreases |rs|
  {
    if rs == [] then h else ReferenceAll(Reference(h, rs[0]), rs[1..])
  }

  /** Over every run the stacks are the reference history, which is never empty and never repeats a URL in a row. */
  lemma {:induction false} HistoryAlways(s: Stacks, rs: seq<Request>)
    requires s.back != [] && NoAdjacentEqual(Abstract(s).urls)
    ensures Abstract(DoAll(s, rs)) == ReferenceAll(Abstract(s), rs)
    ensures NoAdjacentEqual(Abstract(DoAll(s, rs)).urls)
    decreases |rs|
  {
    if rs != [] {
      StacksRefineHistory(s, rs[0]);
      HistoryAlways(Do(s, rs[0]), rs[1..]);
    }
  }

  /** Going back n and then forward n is the identity exactly when n pages can be gone back,
      or there is no page ahead to overshoot to, or n asks for no move. */
  lemma BackThenForward(s: Stacks, n: int)
    requires s.back != []
    ensures Do(Do(s, Back(n)), Forward(n)) == s <==> n < 1 || n <= |s.back| - 1 || s.forward == []
  {
    var t := Do(Do(s, Back(n)), Forward(n));
    StacksRefineHistory(s, Back(n));
    StacksRefineHistory(Do(s, Back(n)), Forward(n));
    if t.back == s.back && Abstract(t) == Abstract(s) {
      SameHistory(s, t);
    }
    if |t.back| == |s.back| {
      assert Abstract(t).urls == Abstract(s).urls;
      assert t.back == Abstract(t).urls[..|t.back|] == s.back;
      SameHistory(s, t);
    }
  }

  lemma SameHistory(s: Stacks, t: Stacks)
    requires |s.back| == |t.back| && Abstract(s) == Abstract(t)
    ensures s == t
  {
    SameParts(s.back, Reverse(s.forward), t.back, Reverse(t.forward));
    ReverseTwice(s.forward);
    ReverseTwice(t.forward);
  }

  lemma SameParts(a: seq<string>, b: seq<string>, c: seq<string>, d: seq<string>)
    requires |a| == |c| && a + b == c + d
    ensures a == c && b == d
  {
    assert a == (a + b)[..|a|] && c == (c + d)[..|c|];
    assert b == (a + b)[|a|..] && d == (c + d)[|c|..];
  }

  /** Back by two and forward by two from the second of three pages ends on the third. */
  lemma Overshoots()
    ensures var s := Stacks(["a", "b"], ["c"]);
      Do(Do(s, Back(2)), Forward(2)) != s && CurrentUrl(Do(Do(s, Back(2)), Forward(2))) == "c"
  {
    var s := Stacks(["a", "b"], ["c"]);
    BackThenForward(s, 2);
    StacksRefineHistory(s, Back(2));
    StacksRefineHistory(Do(s, Back(2)), Forward(2));
    assert Abstract(s) == History(["a", "b", "c"], 1);
  }
}
