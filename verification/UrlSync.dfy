/** The loop that keeps the history and the page's URL together: the service publishes, the adapter calls page.go,
    the page queues a notification, and the router tells the service about the page's URL again. */
module UrlSync {
  import opened Wrappers
  import opened Navigation

  /** The service's stacks, the page's route, and how many route-change notifications are queued. */
  datatype World = World(nav: Stacks, route: string, pending: nat)

  /** page.go: sets the route at once and queues a notification. */
  function Go(w: World, url: string): World {
    w.(route := url, pending := w.pending + 1)
  }

  /** A request to the service, and the adapter's reaction to the event it publishes. */
  function Ask(w: World, r: Request): (v: World)
    requires w.nav.back != []
    ensures v.nav.back != []
  {
    var v := w.(nav := Do(w.nav, r));
    if Moves(w.nav, r) && w.route != CurrentUrl(v.nav) then Go(v, CurrentUrl(v.nav)) else v
  }

  function AskAll(w: World, rs: seq<Request>): (v: World)
    requires w.nav.back != []
    ensures v.nav.back != []
    decreases |rs|
  {
    if rs == [] then w else AskAll(Ask(w, rs[0]), rs[1..])
  }

  lemma AskNext(w: World, rs: seq<Request>, i: nat)
    requires w.nav.back != [] && i < |rs|
    ensures AskAll(w, rs[i..]) == AskAll(Ask(w, rs[i]), rs[i + 1..])
  {
    assert rs[i..][1..] == rs[i + 1..];
  }

  /** What the router takes an empty route for. */
  function Raw(route: string): string { if route == "" then "/" else route }

  /** The router's handler: report the page's URL to the service, then build the view, which may navigate itself. */
  function Handle(w: World, viewAsks: seq<Request>): (v: World)
    requires w.nav.back != [] && w.pending > 0
    ensures v.nav.back != []
  {
    AskAll(Ask(w.(pending := w.pending - 1), Visit(Raw(w.route))), viewAsks)
  }

  datatype Step = Service(request: Request) | UrlBar(url: string) | Notified(viewAsks: seq<Request>)

  predicate Enabled(w: World, s: Step) {
    w.nav.back != [] && (s.Notified? ==> w.pending > 0)
  }

  function Next(w: World, s: Step): (v: World)
    requires Enabled(w, s)
    ensures v.nav.back != []
  {
    match s
    case Service(r) => Ask(w, r)
    case UrlBar(url) => Go(w, url)
    case Notified(viewAsks) => Handle(w, viewAsks)
  }

  predicate Runs(w: World, steps: seq<Step>)
    decreases |steps|
  {
    steps == [] || (Enabled(w, steps[0]) && Runs(Next(w, steps[0]), steps[1..]))
  }

  function Final(w: World, steps: seq<Step>): World
    requires Runs(w, steps)
    decreases |steps|
  {
    if steps == [] then w else Final(Next(w, steps[0]), steps[1..])
  }

  class Shell {
    const service: NavigationService
    var route: string
    var pending: nat

    function State(): World
      reads this, service
    {
      World(service.State(), route, pending)
    }

    /** Start-up renders the first view directly, which stands for one queued notification. */
    constructor (homepage: string, route: string)
      ensures fresh(service) && State() == World(Stacks([homepage], []), route, 1)
    {
      var nav := new NavigationService(homepage);
      service := nav;
      this.route, pending := route, 1;
    }

    /** The adapter's handler of nav.route_changed. */
    method OnRouteChanged(url: string)
      modifies this
      ensures State() == if old(route) != url then Go(old(State()), url) else old(State())
    {
      if route != url {
        route, pending := url, pending + 1;
      }
    }

    method Request(r: Request)
      requires service.back != []
      modifies this, service
      ensures State() == Ask(old(State()), r)
    {
      var result := service.Execute(r);
      if result.event.Some? {
        OnRouteChanged(result.event.value);
      }
    }

    method RouteChange(viewAsks: seq<Request>)
      requires service.back != [] && pending > 0
      modifies this, service
      ensures State() == Handle(old(State()), viewAsks)
    {
      pending := pending - 1;
      Request(Visit(if route == "" then "/" else route));
      ghost var built := State();
      for i := 0 to |viewAsks|
        invariant service.back != []
        invariant AskAll(State(), viewAsks[i..]) == AskAll(built, viewAsks)
      {
        AskNext(State(), viewAsks, i);
        Request(viewAsks[i]);
      }
      assert viewAsks[|viewAsks|..] == [];
    }
  }

  // ---------- Agreement ----------

  /** The page shows the service's current URL; an empty route shows the root. */
  predicate Agrees(w: World)
    requires w.nav.back != []
  {
    w.route == CurrentUrl(w.nav) || (w.route == "" && CurrentUrl(w.nav) == "/")
  }

  lemma AskKeepsAgreement(w: World, r: Request)
    requires w.nav.back != []
    ensures Agrees(w) || Moves(w.nav, r) ==> Agrees(Ask(w, r))
    ensures Moves(w.nav, r) ==> Ask(w, r).route == CurrentUrl(Ask(w, r).nav)
    ensures w.pending <= Ask(w, r).pending <= w.pending + 1
  {
  }

  lemma {:induction false} AskAllKeepsAgreement(w: World, rs: seq<Request>)
    requires w.nav.back != [] && Agrees(w)
    ensures Agrees(AskAll(w, rs)) && AskAll(w, rs).pending >= w.pending
    decreases |rs|
  {
    if rs != [] {
      AskKeepsAgreement(w, rs[0]);
      AskAllKeepsAgreement(Ask(w, rs[0]), rs[1..]);
    }
  }

  lemma HandlingAgrees(w: World, viewAsks: seq<Request>)
    requires w.nav.back != [] && w.pending > 0
    ensures Agrees(Handle(w, viewAsks))
  {
    AskAllKeepsAgreement(Ask(w.(pending := w.pending - 1), Visit(Raw(w.route))), viewAsks);
  }

  /** Whatever mix of requests, URL-bar changes, notifications and navigating views has run: when no notification
      is queued, the page agrees with the service. */
  lemma {:induction false} AgreesWhenQuiet(w: World, steps: seq<Step>)
    requires w.nav.back != [] && Runs(w, steps) && (w.pending == 0 ==> Agrees(w))
    ensures var v := Final(w, steps); v.nav.back != [] && (v.pending == 0 ==> Agrees(v))
    decreases |steps|
  {
    if steps != [] {
      match steps[0] {
        case Service(r) => AskKeepsAgreement(w, r);
        case UrlBar(_) =>
        case Notified(viewAsks) => HandlingAgrees(w, viewAsks);
      }
      AgreesWhenQuiet(Next(w, steps[0]), steps[1..]);
    }
  }

  // ---------- The empty route ----------

  /** The one way to agree without showing the URL: the root under an empty route. */
  predicate Blank(w: World)
    requires w.nav.back != []
  {
    w.route == "" && CurrentUrl(w.nav) == "/"
  }

  /** Whether one of the requests navigates. */
  predicate AnyMoves(s: Stacks, rs: seq<Request>)
    requires s.back != []
    decreases |rs|
  {
    rs != [] && (Moves(s, rs[0]) || AnyMoves(Do(s, rs[0]), rs[1..]))
  }

  /** Setting the empty route while the service is at the root. */
  predicate Empties(w: World, s: Step)
    requires w.nav.back != []
  {
    s == UrlBar("") && CurrentUrl(w.nav) == "/"
  }

  /** A step that leaves no empty route at the root behind: any other URL, or a navigation. */
  predicate Recovers(w: World, s: Step)
    requires w.nav.back != []
  {
    match s
    case Service(r) => Moves(w.nav, r)
    case UrlBar(_) => !Empties(w, s)
    case Notified(viewAsks) => AnyMoves(w.nav, viewAsks)
  }

  lemma AskBlanks(w: World, r: Request)
    requires w.nav.back != []
    ensures Blank(Ask(w, r)) <==> Blank(w) && !Moves(w.nav, r)
  {
  }

  lemma {:induction false} AskAllBlanks(w: World, rs: seq<Request>)
    requires w.nav.back != []
    ensures Blank(AskAll(w, rs)) <==> Blank(w) && !AnyMoves(w.nav, rs)
    decreases |rs|
  {
    if rs != [] {
      AskBlanks(w, rs[0]);
      AskAllBlanks(Ask(w, rs[0]), rs[1..]);
    }
  }

  /** Exactly when a step leaves the page blank, from what is known before it: the step sets the empty route at the
      root, or the page is blank already and the step does not recover. */
  lemma BlankStep(w: World, s: Step)
    requires Enabled(w, s)
    ensures Blank(Next(w, s)) <==> Empties(w, s) || (Blank(w) && !Recovers(w, s))
  {
    match s
    case Service(r) => AskBlanks(w, r);
    case UrlBar(_) =>
    case Notified(viewAsks) =>
      var reported := w.(pending := w.pending - 1);
      AskBlanks(reported, Visit(Raw(w.route)));
      AskAllBlanks(Ask(reported, Visit(Raw(w.route))), viewAsks);
      assert Blank(w) ==> Ask(reported, Visit("/")).nav == w.nav;
  }

  /** Handling a notification makes the route the current URL exactly when the empty route was not being shown at the
      root before, or the view navigates. */
  lemma HandledRouteIsCurrent(w: World, viewAsks: seq<Request>)
    requires w.nav.back != [] && w.pending > 0
    ensures var v := Handle(w, viewAsks); v.route == CurrentUrl(v.nav) <==> !Blank(w) || AnyMoves(w.nav, viewAsks)
  {
    HandlingAgrees(w, viewAsks);
    BlankStep(w, Notified(viewAsks));
  }

  /** Whether the last of the steps that empty the route at the root, or the start, is never recovered from. */
  predicate StaysBlank(w: World, steps: seq<Step>, blank: bool)
    requires w.nav.back != [] && Runs(w, steps)
    decreases |steps|
  {
    if steps == [] then blank
    else StaysBlank(Next(w, steps[0]), steps[1..], Empties(w, steps[0]) || (blank && !Recovers(w, steps[0])))
  }

  lemma {:induction false} BlankRuns(w: World, steps: seq<Step>)
    requires w.nav.back != [] && Runs(w, steps)
    ensures Final(w, steps).nav.back != [] && (Blank(Final(w, steps)) <==> StaysBlank(w, steps, Blank(w)))
    decreases |steps|
  {
    if steps != [] {
      BlankStep(w, steps[0]);
      BlankRuns(Next(w, steps[0]), steps[1..]);
    }
  }

  /** No step sets the empty route while the service is at the root. */
  predicate NeverEmptied(w: World, steps: seq<Step>)
    requires w.nav.back != [] && Runs(w, steps)
    decreases |steps|
  {
    steps == [] || (!Empties(w, steps[0]) && NeverEmptied(Next(w, steps[0]), steps[1..]))
  }

  lemma {:induction false} NeverBlank(w: World, steps: seq<Step>)
    requires w.nav.back != [] && Runs(w, steps) && NeverEmptied(w, steps) && !Blank(w)
    ensures Final(w, steps).nav.back != [] && !Blank(Final(w, steps))
    decreases |steps|
  {
    if steps != [] {
      BlankStep(w, steps[0]);
      NeverBlank(Next(w, steps[0]), steps[1..]);
    }
  }

  /** In particular when nobody ever sets the empty route. */
  lemma {:induction false} NoEmptyUrl(w: World, steps: seq<Step>)
    requires w.nav.back != [] && Runs(w, steps) && UrlBar("") !in steps
    ensures NeverEmptied(w, steps)
    decreases |steps|
  {
    if steps != [] {
      assert forall s :: s in steps[1..] ==> s in steps;
      NoEmptyUrl(Next(w, steps[0]), steps[1..]);
    }
  }

  /** From start-up on, if the program does not start with an empty route at the root and nobody sets one there, a
      quiet page's route is literally the current URL. */
  lemma RouteIsCurrentWhenQuiet(homepage: string, route: string, steps: seq<Step>)
    requires !(route == "" && homepage == "/")
    requires var w := World(Stacks([homepage], []), route, 1); Runs(w, steps) && NeverEmptied(w, steps)
    ensures var v := Final(World(Stacks([homepage], []), route, 1), steps);
      v.nav.back != [] && (v.pending == 0 ==> v.route == CurrentUrl(v.nav))
  {
    var w := World(Stacks([homepage], []), route, 1);
    NeverBlank(w, steps);
    AgreesWhenQuiet(w, steps);
  }

  /** For every run at all: a quiet page's route is the current URL exactly when every emptying of the route at the
      root has been recovered from. */
  lemma RouteIsCurrentIffRecovered(homepage: string, route: string, steps: seq<Step>)
    requires Runs(World(Stacks([homepage], []), route, 1), steps)
    ensures var w := World(Stacks([homepage], []), route, 1); var v := Final(w, steps);
      v.nav.back != [] && (v.pending == 0 ==> (v.route == CurrentUrl(v.nav) <==> !StaysBlank(w, steps, Blank(w))))
  {
    var w := World(Stacks([homepage], []), route, 1);
    BlankRuns(w, steps);
    AgreesWhenQuiet(w, steps);
  }

  /** The program started at the root with an empty route: once its first view is there, the page is quiet and its
      route is not the current URL. */
  lemma StartsBlank()
    ensures var w := World(Stacks(["/"], []), "", 1);
      && Runs(w, [Notified([])])
      && var v := Final(w, [Notified([])]);
         v.pending == 0 && v.nav.back != [] && v.route == "" && CurrentUrl(v.nav) == "/"
  {
    var w := World(Stacks(["/"], []), "", 1);
    assert [Notified([])][1..] == [];
    assert Next(w, Notified([])) == World(Stacks(["/"], []), "", 0);
  }

  /** Whatever URL somebody enters, one more notification is queued, and handling it makes the service visit that
      URL, or the root for an empty one. */
  lemma EnteredUrlIsVisited(w: World, url: string)
    requires w.nav.back != []
    ensures var v := Next(w, UrlBar(url));
      && v.pending == w.pending + 1 && v.nav == w.nav
      && Handle(v, []).nav == Do(w.nav, Visit(if url == "" then "/" else url))
  {
  }

  /** The notification that follows a back, forward or visit leaves the page and both stacks as the request left
      them, if nothing navigates in between, exactly when the request did not lead to the empty URL. */
  lemma OwnNotificationIsNoOp(w: World, r: Request)
    requires w.nav.back != [] && Moves(w.nav, r) && Ask(w, r).pending > 0
    ensures Handle(Ask(w, r), []) == Ask(w, r).(pending := Ask(w, r).pending - 1)
            <==> CurrentUrl(Ask(w, r).nav) != ""
  {
    AskKeepsAgreement(w, r);
  }

  // ---------- Settling ----------

  /** Views that redirect: the view at a URL visits another one while it is being built. */
  type Redirects = r: map<string, string> | forall url :: url in r ==> r[url] != ""

  predicate Stays(redirects: Redirects, url: string) {
    url !in redirects || redirects[url] == url
  }

  function Redirected(redirects: Redirects, url: string): string {
    if url in redirects then redirects[url] else url
  }

  /** The URL after n redirects. */
  function Chain(redirects: Redirects, url: string, n: nat): string
    decreases n
  {
    if n == 0 then url else Chain(redirects, Redirected(redirects, url), n - 1)
  }

  function HandleNext(w: World, redirects: Redirects): (v: World)
    requires w.nav.back != []
    ensures v.nav.back != []
  {
    if w.pending == 0 then w
    else Handle(w, if Raw(w.route) in redirects then [Visit(redirects[Raw(w.route)])] else [])
  }

  /** The world after at most n more notifications have been handled, with nothing else going on. */
  function Drain(w: World, redirects: Redirects, n: nat): (v: World)
    requires w.nav.back != []
    ensures v.nav.back != []
    decreases n
  {
    if n == 0 then w else Drain(HandleNext(w, redirects), redirects, n - 1)
  }

  lemma HandleReports(w: World)
    requires w.nav.back != [] && w.pending > 0
    ensures var v := Ask(w.(pending := w.pending - 1), Visit(Raw(w.route)));
      && Handle(w, []) == v && CurrentUrl(v.nav) == Raw(w.route) && Raw(v.route) == Raw(w.route)
      && v.pending == w.pending - (if w.route == "" && CurrentUrl(w.nav) != "/" then 0 else 1)
      && (v.pending == w.pending ==> v.route != "")
      && (CurrentUrl(w.nav) == Raw(w.route) ==> v.nav == w.nav)
  {
  }

  lemma HandleRedirects(w: World, url: string)
    requires w.nav.back != [] && w.pending > 0
    ensures Handle(w, [Visit(url)]) == Ask(Handle(w, []), Visit(url))
  {
    var v := Handle(w, []);
    assert [Visit(url)][1..] == [];
    assert AskAll(v, [Visit(url)]) == AskAll(Ask(v, Visit(url)), []);
  }

  /** One notification: either the view stays, or it moves the page one link along the chain and a notification
      is still queued. */
  lemma HandleNextMoves(w: World, redirects: Redirects)
    requires w.nav.back != [] && w.pending > 0
    ensures var v := HandleNext(w, redirects); var raw := Raw(w.route);
      if Stays(redirects, raw) then
        Raw(v.route) == raw && CurrentUrl(v.nav) == raw
        && v.pending == w.pending - (if w.route == "" && CurrentUrl(w.nav) != "/" then 0 else 1)
        && (v.pending == w.pending ==> v.route != "")
        && (CurrentUrl(w.nav) == raw ==> v.nav == w.nav)
      else v.route == redirects[raw] && v.pending > 0
  {
    HandleReports(w);
    if Raw(w.route) in redirects {
      HandleRedirects(w, redirects[Raw(w.route)]);
    }
  }

  /** Once the view stays, every queued notification is used up and the stacks do not change any more. */
  lemma {:induction false} DrainsWhereItStays(w: World, redirects: Redirects)
    requires w.nav.back != [] && Stays(redirects, Raw(w.route)) && CurrentUrl(w.nav) == Raw(w.route)
    ensures var v := Drain(w, redirects, w.pending); v.pending == 0 && v.nav == w.nav
    decreases w.pending
  {
    if w.pending > 0 {
      HandleNextMoves(w, redirects);
      DrainsWhereItStays(HandleNext(w, redirects), redirects);
    }
  }

  lemma {:induction false} DrainAdds(w: World, redirects: Redirects, m: nat, n: nat)
    requires w.nav.back != []
    ensures Drain(w, redirects, m + n) == Drain(Drain(w, redirects, m), redirects, n)
    decreases m
  {
    if m > 0 {
      DrainAdds(HandleNext(w, redirects), redirects, m - 1, n);
    }
  }

  /** If the chain of redirects ends after n links, the page comes to rest at its end. */
  lemma {:induction false} SettlesIfChainEnds(w: World, redirects: Redirects, n: nat) returns (k: nat)
    requires w.nav.back != [] && w.pending > 0 && Stays(redirects, Chain(redirects, Raw(w.route), n))
    ensures var v := Drain(w, redirects, k);
      v.pending == 0 && Agrees(v) && CurrentUrl(v.nav) == Chain(redirects, Raw(w.route), n)
    decreases n
  {
    var raw, v := Raw(w.route), HandleNext(w, redirects);
    HandleNextMoves(w, redirects);
    if Stays(redirects, raw) {
      ChainOfOne(redirects, raw, n);
      DrainsWhereItStays(v, redirects);
      k := 1 + v.pending;
      DrainAdds(w, redirects, 1, v.pending);
      AgreesAtRest(v, redirects, v.pending);
    } else {
      var rest := SettlesIfChainEnds(v, redirects, n - 1);
      k := rest + 1;
    }
  }

  lemma {:induction false} ChainOfOne(redirects: Redirects, url: string, n: nat)
    requires Stays(redirects, url)
    ensures Chain(redirects, url, n) == url
  {
    if n > 0 {
      ChainOfOne(redirects, url, n - 1);
    }
  }

  lemma {:induction false} AgreesAtRest(w: World, redirects: Redirects, n: nat)
    requires w.nav.back != [] && Agrees(w)
    ensures Agrees(Drain(w, redirects, n))
    decreases n
  {
    if n > 0 {
      if w.pending > 0 {
        HandlingAgrees(w, if Raw(w.route) in redirects then [Visit(redirects[Raw(w.route)])] else []);
      }
      AgreesAtRest(HandleNext(w, redirects), redirects, n - 1);
    }
  }

  lemma {:induction false} NeverQuiet(w: World, redirects: Redirects, k: nat)
    requires w.nav.back != [] && w.pending > 0
    requires forall n: nat :: !Stays(redirects, Chain(redirects, Raw(w.route), n))
    ensures Drain(w, redirects, k).pending > 0
    decreases k
  {
    if k > 0 {
      assert !Stays(redirects, Chain(redirects, Raw(w.route), 0));
      HandleNextMoves(w, redirects);
      var v := HandleNext(w, redirects);
      forall n: nat ensures !Stays(redirects, Chain(redirects, Raw(v.route), n)) {
        assert Chain(redirects, Raw(w.route), n + 1) == Chain(redirects, Raw(v.route), n);
      }
      NeverQuiet(v, redirects, k - 1);
    }
  }

  /** Left alone, the loop comes to rest exactly when the chain of redirects from the page's URL ends. */
  lemma SettlesIffChainEnds(w: World, redirects: Redirects)
    requires w.nav.back != [] && w.pending > 0
    ensures (exists k: nat :: Drain(w, redirects, k).pending == 0)
            <==> (exists n: nat :: Stays(redirects, Chain(redirects, Raw(w.route), n)))
  {
    if n: nat :| Stays(redirects, Chain(redirects, Raw(w.route), n)) {
      var k := SettlesIfChainEnds(w, redirects, n);
    } else {
      forall k: nat ensures Drain(w, redirects, k).pending > 0 {
        NeverQuiet(w, redirects, k);
      }
    }
  }
}
