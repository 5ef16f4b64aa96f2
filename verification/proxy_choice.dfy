/** How a frame comes to its backend: which candidates it is offered, and when stickiness decides. */
module DispatchChoice {
  import opened Common
  import opened Proxy
  import opened DispatchRequests
  import B = CircuitBreaker

  // ----- stickiness

  lemma {:induction false} StickyIsFirst(w: World, candidates: seq<nat>, url: string, k: nat)
    requires Known(w, candidates) && k < |candidates| && Serves(w, candidates[k], url)
    requires forall j :: 0 <= j < k ==> !Serves(w, candidates[j], url)
    ensures StickyPeer(w, candidates, url) == Some(candidates[k])
  {
    if k > 0 {
      assert !Serves(w, candidates[0], url);
      assert forall j :: 0 <= j < k - 1 ==> candidates[1..][j] == candidates[j + 1];
      StickyIsFirst(w, candidates[1..], url, k - 1);
    }
  }

  /** What a request can do while its innermost frame chooses. */
  lemma ChoiceNow(c: Settings, s: System, i: nat, ch: Choice)
    requires Enabled(c, s, Run(i, ch)) && Top(s.requests[i]).phase.Selecting? && Nested(s.requests[i].stack)
    ensures var r := s.requests[i];
      var candidates := Top(r).phase.candidates;
      var sticky := if c.sticky && r.cookie != "" then StickyPeer(s.world, candidates, r.cookie) else None;
      var next := Next(c, s, Run(i, ch)).requests[i];
      && Known(s.world, candidates)
      && (sticky.Some? ==> ch == Go && next.stack != [] && GoesTo(c, next, sticky.value))
      && (sticky.None? ==> ch.Pick? && MayPick(s.world, candidates, ch.pick))
      && (sticky.None? && ch.pick.Some? ==> next.stack != [] && GoesTo(c, next, ch.pick.value))
      && (sticky.None? && ch.pick.None? ==> next.log == r.log + [Refused])
  {
    hide Perform, StickyPeer, MayPick, B.Allow, B.Eligible, Touch, Nested;
    var r := s.requests[i];
    var e := Plan(c, s.world, r, ch).value;
    PerformTop(r, e);
    PerformLog(r, e);
  }

  /** The frame goes on with this backend: to its breaker if there is one, else straight to the dispatch. */
  predicate GoesTo(c: Settings, r: Request, id: nat)
    requires r.stack != []
  {
    Top(r).phase == if c.breaker.Some? then Asking(id) else Admitted(id)
  }

  /** A cookie that names an alive candidate decides: the frame goes on with the first such one, in every run. */
  lemma StickinessIsHonoured(c: Settings, s: System, actions: seq<Action>, i: nat, ch: Choice, k: nat)
    requires Initial(s) && c.sticky && Enabled(c, After(c, s, actions), Run(i, ch))
    requires Top(After(c, s, actions).requests[i]).phase.Selecting?
    requires var t := After(c, s, actions);
      var r := t.requests[i];
      var candidates := Top(r).phase.candidates;
      && r.cookie != "" && k < |candidates| && Serves(t.world, candidates[k], r.cookie)
      && forall j :: 0 <= j < k ==> !Serves(t.world, candidates[j], r.cookie)
    ensures var t := After(c, s, actions);
      var next := Next(c, t, Run(i, ch)).requests[i];
      next.stack != [] && GoesTo(c, next, Top(t.requests[i]).phase.candidates[k])
  {
    hide After, Nested, Next, KnownStack, Plan, GoesTo;
    var t := After(c, s, actions);
    InitiallySound(s);
    AlwaysSound(c, s, actions);
    SoundMeans(t, i);
    ChoiceNow(c, t, i, ch);
    StickyIsFirst(t.world, Top(t.requests[i]).phase.candidates, t.requests[i].cookie, k);
  }

  /** Without one the algorithm decides; the frame goes on with its pick, or answers 503 when it picks none. */
  lemma AlgorithmDecides(c: Settings, s: System, actions: seq<Action>, i: nat, ch: Choice)
    requires Initial(s) && Enabled(c, After(c, s, actions), Run(i, ch))
    requires Top(After(c, s, actions).requests[i]).phase.Selecting?
    requires var t := After(c, s, actions);
      var r := t.requests[i];
      c.sticky && r.cookie != "" ==>
        forall j :: 0 <= j < |Top(r).phase.candidates| ==> !Serves(t.world, Top(r).phase.candidates[j], r.cookie)
    ensures var t := After(c, s, actions);
      var r := t.requests[i];
      var next := Next(c, t, Run(i, ch)).requests[i];
      && ch.Pick?
      && (ch.pick.Some? ==> ch.pick.value in Top(r).phase.candidates)
      && (ch.pick.Some? ==> next.stack != [] && GoesTo(c, next, ch.pick.value))
      && (ch.pick.None? ==> next.log == r.log + [Refused])
  {
    hide After, Nested, Next, KnownStack, Plan, GoesTo, StickyPeer;
    var t := After(c, s, actions);
    InitiallySound(s);
    AlwaysSound(c, s, actions);
    SoundMeans(t, i);
    ChoiceNow(c, t, i, ch);
  }

  // ----- the filter

  /** Whether a backend's breaker, asked now, would admit. */
  predicate WouldAdmit(c: Settings, w: World, id: nat)
    requires id < |w.servers| && c.breaker.Some?
  {
    B.Allow(c.breaker.value, BreakerOf(w, w.servers[id].url), w.now).1
  }

  /** The filter leaves a backend out exactly when its breaker would refuse at that instant. */
  lemma FilterAsksEach(c: Settings, w: World, r: Request, ch: Choice)
    requires r.stack != [] && KnownPhase(w, Top(r).phase) && Plan(c, w, r, ch).Some? && Top(r).phase.Filtering?
    requires Top(r).phase.next < |Top(r).phase.all|
    ensures var p := Top(r).phase;
      Plan(c, w, r, ch) == Some(Become(Filtering(p.all, p.next + 1,
        if WouldAdmit(c, w, p.all[p.next]) then p.kept + [p.all[p.next]] else p.kept), []))
  {
    hide B.Allow, B.Eligible;
    B.EligibleForetellsAllow(c.breaker.value, BreakerOf(w, w.servers[Top(r).phase.all[Top(r).phase.next]].url), w.now);
  }

  /** What was kept is offered; only if nothing was, all of the snapshot is. */
  lemma FilterEnds(c: Settings, w: World, r: Request, ch: Choice)
    requires r.stack != [] && KnownPhase(w, Top(r).phase) && Plan(c, w, r, ch).Some? && Top(r).phase.Filtering?
    requires Top(r).phase.next == |Top(r).phase.all|
    ensures var p, e := Top(r).phase, Plan(c, w, r, ch).value;
      && e.Become? && e.phase.Selecting?
      && forall id :: id in e.phase.candidates <==> if p.kept == [] then id in p.all else id in p.kept
  {
  }

  /** Every pooled backend's breaker would admit, if there are breakers. */
  ghost predicate AllWouldAdmit(c: Settings, w: World) {
    c.breaker.Some? ==> forall i :: 0 <= i < |w.pool| && w.pool[i] < |w.servers| ==> WouldAdmit(c, w, w.pool[i])
  }

  /** What a frame has been offered so far is all of the pool. */
  predicate OfferedAll(pool: seq<nat>, r: Request) {
    r.stack != [] ==>
      var p := Top(r).phase;
      && (p.Filtering? ==> p.all == pool && p.next <= |p.all| && p.kept == p.all[..p.next])
      && (p.Selecting? ==> p.candidates == pool)
  }

  /** Some backend was offered. */
  predicate OfferedSome(r: Request) {
    r.stack != [] ==>
      var p := Top(r).phase;
      (p.Filtering? ==> p.all != []) && (p.Selecting? ==> p.candidates != [])
  }

  predicate NoCookies(log: seq<Event>) {
    forall k :: 0 <= k < |log| ==> !log[k].Cookie?
  }

  lemma OfferedAllMove(c: Settings, w: World, r: Request, ch: Choice)
    requires r.stack != [] && Nested(r.stack) && KnownPhase(w, Top(r).phase) && Plan(c, w, r, ch).Some?
    requires Known(w, w.pool) && AllWouldAdmit(c, w) && OfferedAll(w.pool, r)
    ensures OfferedAll(w.pool, Perform(r, Plan(c, w, r, ch).value))
  {
    hide Perform, Nested, StickyPeer, MayPick, B.Allow, B.Eligible;
    PerformTop(r, Plan(c, w, r, ch).value);
    var p := Top(r).phase;
    if p.Filtering? && p.next < |p.all| {
      assert WouldAdmit(c, w, w.pool[p.next]);
      FilterAsksEach(c, w, r, ch);
      assert p.all[..p.next] + [p.all[p.next]] == p.all[..p.next + 1];
    } else if p.Filtering? {
      assert p.all[..p.next] == p.all;
    }
  }

  lemma OfferedSomeMove(c: Settings, w: World, r: Request, ch: Choice)
    requires r.stack != [] && Nested(r.stack) && KnownPhase(w, Top(r).phase) && Plan(c, w, r, ch).Some?
    requires w.pool != [] && OfferedSome(r)
    ensures OfferedSome(Perform(r, Plan(c, w, r, ch).value))
  {
    hide Perform, Nested, StickyPeer, MayPick, B.Allow, B.Eligible, KnownPhase;
    PerformTop(r, Plan(c, w, r, ch).value);
  }

  lemma NoCookiesMove(c: Settings, w: World, r: Request, ch: Choice)
    requires r.stack != [] && KnownPhase(w, Top(r).phase) && Plan(c, w, r, ch).Some?
    requires !c.sticky && NoCookies(r.log)
    ensures NoCookies(Perform(r, Plan(c, w, r, ch).value).log)
  {
    hide Plan, Perform;
    PlanOutline(c, w, r, ch);
    PerformLog(r, Plan(c, w, r, ch).value);
  }

  /** A claim about each request: what it was offered, or what it may not have sent. */
  datatype Claim = Whole(pool: seq<nat>) | NonEmpty | CookieFree

  ghost predicate Holds(claim: Claim, r: Request) {
    match claim
    case Whole(pool) => OfferedAll(pool, r)
    case NonEmpty => OfferedSome(r)
    case CookieFree => NoCookies(r.log)
  }

  /** What the claim asks of the system at every point. */
  ghost predicate Given(claim: Claim, c: Settings, s: System) {
    match claim
    case Whole(pool) => s.world.pool == pool && AllWouldAdmit(c, s.world)
    case NonEmpty => s.world.pool != []
    case CookieFree => !c.sticky
  }

  lemma HoldsMove(claim: Claim, c: Settings, s: System, i: nat, ch: Choice)
    requires Sound(s) && Enabled(c, s, Run(i, ch)) && Given(claim, c, s) && Holds(claim, s.requests[i])
    ensures Holds(claim, Moved(c, s, i, ch).requests[i])
  {
    hide Plan, Perform, Touch, Nested, KnownStack, KnownPhase, OfferedAll, OfferedSome, NoCookies, AllWouldAdmit;
    match claim {
      case Whole(_) => OfferedAllMove(c, s.world, s.requests[i], ch);
      case NonEmpty => OfferedSomeMove(c, s.world, s.requests[i], ch);
      case CookieFree => NoCookiesMove(c, s.world, s.requests[i], ch);
    }
  }

  lemma HoldsStep(claim: Claim, c: Settings, s: System, a: Action, i: nat)
    requires Sound(s) && Given(claim, c, s) && i < |Next(c, s, a).requests|
    requires i < |s.requests| ==> Holds(claim, s.requests[i])
    ensures Holds(claim, Next(c, s, a).requests[i])
  {
    hide Plan, Perform, Touch, Nested, KnownStack, KnownPhase, Holds, Given;
    if a.Run? && a.request == i && Enabled(c, s, a) {
      HoldsMove(claim, c, s, i, a.choice);
    } else if i >= |s.requests| {
      HoldsOnArrival(claim, Next(c, s, a).requests[i]);
    }
  }

  lemma HoldsOnArrival(claim: Claim, r: Request)
    requires r.stack == [NewFrame(0)] && r.log == []
    ensures Holds(claim, r)
  {
  }

  ghost predicate AlwaysGiven(claim: Claim, c: Settings, s: System, actions: seq<Action>) {
    forall k :: 0 <= k <= |actions| ==> Given(claim, c, After(c, s, actions[..k]))
  }

  lemma {:induction false} AlwaysHolds(claim: Claim, c: Settings, s: System, actions: seq<Action>, i: nat)
    requires Initial(s) && AlwaysGiven(claim, c, s, actions) && i < |After(c, s, actions).requests|
    ensures Holds(claim, After(c, s, actions).requests[i])
  {
    hide Next, Given, Holds, Sound;
    if actions != [] {
      var front, a := actions[..|actions| - 1], actions[|actions| - 1];
      var t := After(c, s, front);
      assert forall k :: 0 <= k <= |front| ==> front[..k] == actions[..k];
      assert front[..|front|] == front;
      InitiallySound(s);
      AlwaysSound(c, s, front);
      if i < |t.requests| { AlwaysHolds(claim, c, s, front, i); }
      HoldsStep(claim, c, t, a, i);
    }
  }

  /**
    While the pool stays and no breaker of a pooled backend would refuse, every frame chooses from the whole pool,
    in every interleaving, with breakers or without.
   */
  lemma EveryBackendIsOffered(c: Settings, s: System, actions: seq<Action>, i: nat, pool: seq<nat>)
    requires Initial(s) && i < |After(c, s, actions).requests| && After(c, s, actions).requests[i].stack != []
    requires forall k :: 0 <= k <= |actions| ==>
      After(c, s, actions[..k]).world.pool == pool && AllWouldAdmit(c, After(c, s, actions[..k]).world)
    requires Top(After(c, s, actions).requests[i]).phase.Selecting?
    ensures Top(After(c, s, actions).requests[i]).phase.candidates == pool
  {
    hide After, AllWouldAdmit, Initial;
    AlwaysHolds(Whole(pool), c, s, actions, i);
  }

  /** However many circuits are open, no frame is left without a candidate while the pool has one. */
  lemma FilterNeverEmpties(c: Settings, s: System, actions: seq<Action>, i: nat)
    requires Initial(s) && i < |After(c, s, actions).requests| && After(c, s, actions).requests[i].stack != []
    requires forall k :: 0 <= k <= |actions| ==> After(c, s, actions[..k]).world.pool != []
    requires Top(After(c, s, actions).requests[i]).phase.Selecting?
    ensures Top(After(c, s, actions).requests[i]).phase.candidates != []
  {
    hide After, Initial;
    AlwaysHolds(NonEmpty, c, s, actions, i);
  }

  /** Without stickiness no cookie is ever set. */
  lemma NoCookieWithoutStickiness(c: Settings, s: System, actions: seq<Action>, i: nat)
    requires Initial(s) && !c.sticky && i < |After(c, s, actions).requests|
    ensures NoCookies(After(c, s, actions).requests[i].log)
  {
    hide After, Initial, NoCookies;
    AlwaysHolds(CookieFree, c, s, actions, i);
  }

  // ----- what the upstream, the timer and the client may do

  /**
    A try can end in any answer or in an error before one, and a back-off in the timer or in the client leaving;
    whatever the answer is, the request ends with it.
   */
  lemma EveryOutcomeIsPossible(c: Settings, s: System, actions: seq<Action>, i: nat, code: int)
    requires Initial(s) && i < |After(c, s, actions).requests| && After(c, s, actions).requests[i].stack != []
    ensures var t := After(c, s, actions);
      var r := t.requests[i];
      && (Top(r).phase.Trying? ==>
            && Enabled(c, t, Run(i, Break)) && Enabled(c, t, Run(i, Answer(code)))
            && Next(c, t, Run(i, Answer(code))).requests[i].log == r.log + [Answered(Top(r).phase.peer, code)])
      && (Top(r).phase.BackingOff? ==> Enabled(c, t, Run(i, Timer)) && Enabled(c, t, Run(i, ClientGone)))
  {
    hide After, Nested, MayPick, StickyPeer, B.Allow, B.Eligible, WriteThrough;
    var t := After(c, s, actions);
    InitiallySound(s);
    AlwaysSound(c, s, actions);
    SoundMeans(t, i);
    TopKnown(t.world, t.requests[i]);
  }

  // ----- who is in the pool

  /** A backend of the URL is pooled. */
  ghost predicate IsPooled(w: World, url: string) {
    exists i :: 0 <= i < |w.pool| && w.pool[i] < |w.servers| && w.servers[w.pool[i]].url == url
  }

  ghost predicate IsFirst(w: World, p: int, url: string) {
    && Known(w, w.pool) && 0 <= p < |w.pool| && w.servers[w.pool[p]].url == url
    && forall j :: 0 <= j < p ==> w.servers[w.pool[j]].url != url
  }

  /**
    Registration adds a new backend, alive and idle, after the others, and refuses a URL that is pooled; removal
    takes out the first backend of the URL and no other; a verdict changes one flag.
   */
  lemma MembershipActions(c: Settings, s: System, url: string, id: nat, alive: bool)
    requires Sound(s) && id < |s.world.servers|
    ensures var w, w' := s.world, Next(c, s, Add(url)).world;
      if IsPooled(w, url) then w' == w
      else w'.pool == w.pool + [|w.servers|] && w'.servers == w.servers + [Server(url, true, 0)]
    ensures var w, w' := s.world, Next(c, s, Remove(url)).world;
      if !IsPooled(w, url) then w' == w
      else w'.servers == w.servers && exists p :: IsFirst(w, p, url) && w'.pool == w.pool[..p] + w.pool[p + 1..]
    ensures var w, w' := s.world, Next(c, s, Judge(id, alive)).world;
      w'.pool == w.pool && w'.servers == w.servers[id := w.servers[id].(alive := alive)]
  {
    hide Nested, KnownStack;
    var w := s.world;
    var p := InPool(w, w.pool, url);
    if p.Some? {
      assert w.servers[w.pool[p.value]].url == url;
      FirstInPool(w, w.pool, url);
      assert IsFirst(w, p.value, url);
    }
  }

  lemma {:induction false} FirstInPool(w: World, pool: seq<nat>, url: string)
    requires Known(w, pool) && InPool(w, pool, url).Some?
    ensures forall j :: 0 <= j < InPool(w, pool, url).value ==> w.servers[pool[j]].url != url
  {
    if w.servers[pool[0]].url != url {
      FirstInPool(w, pool[1..], url);
      assert forall j :: 1 <= j < |pool| ==> pool[j] == pool[1..][j - 1];
    }
  }

  // ----- the clock, and the dead mark

  /** Time passes while the system waits, by as much as it waits, and at no other step. */
  lemma ClockMoves(c: Settings, s: System, a: Action)
    requires Sound(s)
    ensures Next(c, s, a).world.now == s.world.now + if a.Wait? && a.seconds >= 0.0 then a.seconds else 0.0
  {
    hide Plan, Touch, Perform, Nested, KnownStack, KnownPhase;
    if Enabled(c, s, a) && a.Run? { TouchKeepsServers(c, s.world, s.requests[a.request], a.choice); }
  }

  /**
    A failed dispatch marks the first pooled backend of the peer's URL dead, which need not be the peer itself, and
    no other; when the URL is no longer pooled it marks none. No other step of a request changes a flag.
   */
  lemma OnlyThePooledIsMarked(c: Settings, w: World, r: Request, ch: Choice, id: nat)
    requires r.stack != [] && KnownPhase(w, Top(r).phase) && Known(w, w.pool) && Plan(c, w, r, ch).Some?
    requires id < |w.servers|
    ensures |Touch(c, w, r, ch).servers| == |w.servers|
    ensures Touch(c, w, r, ch).servers[id].alive <==>
      && w.servers[id].alive
      && !(Top(r).phase.Marking? && exists p :: IsFirst(w, p, w.servers[Top(r).phase.peer].url) && w.pool[p] == id)
  {
    hide Plan, B.Allow, B.RecordFailure, B.RecordSuccess, BreakerOf;
    TouchKeepsServers(c, w, r, ch);
    if Top(r).phase.Marking? {
      var url := w.servers[Top(r).phase.peer].url;
      var found := InPool(w, w.pool, url);
      if found.Some? {
        FirstInPool(w, w.pool, url);
        assert IsFirst(w, found.value, url);
        forall p | IsFirst(w, p, url) ensures p == found.value {
        }
      }
    }
  }
}
