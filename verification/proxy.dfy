/**
  Request dispatch with retries, failover, stickiness and circuit breakers (internal/proxy/proxy.go).

  A request is a stack of ServeHTTP frames, the innermost last. Every step is one operation the code does
  atomically (a method under a mutex, a snapshot, one upstream outcome), and the steps of any number of
  requests interleave freely with each other, with the clock, and with health checks, admin calls and reloads.
 */
module Proxy {
  import opened Common
  import B = CircuitBreaker

  const MAX_SWITCHES: nat := 3
  const MAX_RETRIES: nat := 3
  const OK: int := 200
  const UNAVAILABLE: int := 503

  /** A backend object; its identity is its position among all backends ever created. */
  datatype Server = Server(url: string, alive: bool, conns: int)

  /** The thresholds of the breakers, as they clamp them, when breakers are on; and whether stickiness is. */
  datatype Settings = Settings(breaker: Option<B.Config>, sticky: bool)

  /** What all requests share. */
  datatype World = World(servers: seq<Server>, pool: seq<nat>, breakers: map<string, B.State>, now: real)

  /** Where a frame stands. `peer` is the backend it dispatches to. */
  datatype Phase =
    | Entered
    | Filtering(all: seq<nat>, next: nat, kept: seq<nat>)
    | Selecting(candidates: seq<nat>)
    | Asking(peer: nat)
    | Admitted(peer: nat)
    | Trying(peer: nat, retry: nat)
    | BackingOff(peer: nat, retry: nat)
    | Marking(peer: nat)
    | Blaming(peer: nat)
    | Switching(peer: nat)
    | Delegated(peer: nat)
    | Passed
    | Recording(peer: nat)
    | Closing(peer: nat)
    | Done

  /** `attempts` and the retry count travel in the request context; `status` is the frame's captured status code. */
  datatype Frame = Frame(attempts: nat, phase: Phase, status: int)

  /** What a request has done that others can see. */
  datatype Event =
    | Reached(peer: nat)
    | Tried(peer: nat)
    | Cookie(url: string)
    | Answered(peer: nat, code: int)
    | Refused
    | Abandoned(peer: nat)
    | Recorded(peer: nat, status: int)

  /** `cookie` is the backend URL in the client's sticky cookie, empty when there is none. */
  datatype Request = Request(verb: string, cookie: string, stack: seq<Frame>, log: seq<Event>)
  {
    /** The methods that are safe to repeat. */
    predicate Idempotent() {
      verb == "GET" || verb == "HEAD" || verb == "OPTIONS"
    }
  }

  /** What the code leaves open: the algorithm's pick, the upstream's outcome, the race of timer and client. */
  datatype Choice = Go | Pick(pick: Option<nat>) | Answer(code: int) | Break | Timer | ClientGone

  /** What a step does to its own request. */
  datatype Effect =
    | Become(phase: Phase, events: seq<Event>)
    | Call(phase: Phase)
    | Reply(phase: Phase, event: Event, code: int)
    | Return

  function Top(r: Request): Frame
    requires r.stack != []
  {
    r.stack[|r.stack| - 1]
  }

  function Below(r: Request): seq<Frame>
    requires r.stack != []
  {
    r.stack[..|r.stack| - 1]
  }

  /** The breaker of a backend; one that does not exist yet is a new one. */
  function BreakerOf(w: World, url: string): B.State {
    if url in w.breakers then w.breakers[url] else B.Fresh()
  }

  /** Every mention of a backend lies among the created ones. */
  predicate Known(w: World, ids: seq<nat>) {
    forall i :: 0 <= i < |ids| ==> ids[i] < |w.servers|
  }

  predicate HasPeer(p: Phase) {
    !p.Entered? && !p.Filtering? && !p.Selecting? && !p.Passed? && !p.Done?
  }

  predicate KnownPhase(w: World, p: Phase) {
    && (p.Filtering? ==> Known(w, p.all) && Known(w, p.kept) && p.next <= |p.all|)
    && (p.Selecting? ==> Known(w, p.candidates))
    && (HasPeer(p) ==> p.peer < |w.servers|)
  }

  /** An alive backend of the URL. */
  predicate Serves(w: World, id: nat, url: string) {
    id < |w.servers| && w.servers[id].url == url && w.servers[id].alive
  }

  /** The first alive candidate whose URL the cookie names. */
  function StickyPeer(w: World, candidates: seq<nat>, url: string): (p: Option<nat>)
    requires Known(w, candidates)
    ensures p.Some? ==> p.value in candidates && w.servers[p.value].url == url && w.servers[p.value].alive
    ensures p.None? ==> forall i :: 0 <= i < |candidates| ==> !Serves(w, candidates[i], url)
  {
    if candidates == [] then None
    else if w.servers[candidates[0]].url == url && w.servers[candidates[0]].alive then Some(candidates[0])
    else StickyPeer(w, candidates[1..], url)
  }

  /** What every algorithm promises: an alive candidate, and none only when none is alive. */
  ghost predicate MayPick(w: World, candidates: seq<nat>, pick: Option<nat>)
    requires Known(w, candidates)
  {
    match pick
    case Some(p) => p in candidates && w.servers[p].alive
    case None => forall i :: 0 <= i < |candidates| ==> !w.servers[candidates[i]].alive
  }

  function Chosen(c: Settings, peer: nat): Effect {
    Become(if c.breaker.Some? then Asking(peer) else Admitted(peer), [])
  }

  /** The step the innermost frame takes under a choice, or None when the choice does not fit. */
  ghost function Plan(c: Settings, w: World, r: Request, ch: Choice): Option<Effect>
    requires r.stack != [] && KnownPhase(w, Top(r).phase)
  {
    var f := Top(r);
    match f.phase
    case Entered =>
      if ch != Go then None
      else if f.attempts >= MAX_SWITCHES then Some(Reply(Done, Refused, UNAVAILABLE))
      else if c.breaker.Some? then Some(Become(Filtering(w.pool, 0, []), []))
      else Some(Become(Selecting(w.pool), []))
    case Filtering(all, next, kept) =>
      if ch != Go || c.breaker.None? then None
      else if next == |all| then Some(Become(Selecting(if kept != [] then kept else all), []))
      else if B.Eligible(c.breaker.value, BreakerOf(w, w.servers[all[next]].url), w.now) then
        Some(Become(Filtering(all, next + 1, kept + [all[next]]), []))
      else Some(Become(Filtering(all, next + 1, kept), []))
    case Selecting(candidates) =>
      var sticky := if c.sticky && r.cookie != "" then StickyPeer(w, candidates, r.cookie) else None;
      if sticky.Some? then (if ch == Go then Some(Chosen(c, sticky.value)) else None)
      else if !ch.Pick? || !MayPick(w, candidates, ch.pick) then None
      else if ch.pick.None? then Some(Reply(Done, Refused, UNAVAILABLE))
      else Some(Chosen(c, ch.pick.value))
    case Asking(peer) =>
      if ch != Go || c.breaker.None? then None
      else if B.Allow(c.breaker.value, BreakerOf(w, w.servers[peer].url), w.now).1 then Some(Become(Admitted(peer), []))
      else Some(Call(Passed))
    case Admitted(peer) =>
      if ch != Go then None
      else Some(Become(Trying(peer, 0),
        (if c.sticky then [Cookie(w.servers[peer].url)] else []) + [Reached(peer), Tried(peer)]))
    case Trying(peer, retry) =>
      if ch.Answer? then Some(Reply(Recording(peer), Answered(peer, ch.code), ch.code))
      else if ch != Break then None
      else if retry < MAX_RETRIES && r.Idempotent() then Some(Become(BackingOff(peer, retry), []))
      else Some(Become(Marking(peer), []))
    case BackingOff(peer, retry) =>
      if ch == Timer then Some(Become(Trying(peer, retry + 1), [Tried(peer)]))
      else if ch == ClientGone then Some(Become(Recording(peer), [Abandoned(peer)]))
      else None
    case Marking(peer) =>
      if ch != Go then None
      else Some(Become(if c.breaker.Some? then Blaming(peer) else Switching(peer), []))
    case Blaming(peer) =>
      if ch != Go || c.breaker.None? then None else Some(Become(Switching(peer), []))
    case Switching(peer) =>
      if ch != Go then None
      else if f.attempts < MAX_SWITCHES then Some(Call(Delegated(peer)))
      else Some(Reply(Recording(peer), Refused, UNAVAILABLE))
    case Recording(peer) =>
      if ch != Go then None else Some(Become(Closing(peer), [Recorded(peer, f.status)]))
    case Closing(peer) =>
      if ch != Go then None else Some(Become(Done, []))
    case Done =>
      if ch != Go then None else Some(Return)
    case Delegated(_) => None
    case Passed => None
  }

  /** Whether the frame has wrapped the response writer; every write below it then sets its status. */
  predicate Wraps(p: Phase) {
    p.Trying? || p.BackingOff? || p.Marking? || p.Blaming? || p.Switching? || p.Delegated?
  }

  /** A status written by the innermost frame passes through the writers of all frames around it. */
  function WriteThrough(stack: seq<Frame>, code: int): (s: seq<Frame>)
    ensures |s| == |stack|
    ensures forall i :: 0 <= i < |stack| ==>
      s[i] == if Wraps(stack[i].phase) then stack[i].(status := code) else stack[i]
  {
    if stack == [] then []
    else
      var f := stack[|stack| - 1];
      WriteThrough(stack[..|stack| - 1], code) + [if Wraps(f.phase) then f.(status := code) else f]
  }

  /** A frame goes on when the call it waits for returns. */
  function Resumed(f: Frame): Frame {
    if f.phase.Delegated? then f.(phase := Recording(f.phase.peer)) else f.(phase := Done)
  }

  function NewFrame(attempts: nat): Frame {
    Frame(attempts, Entered, OK)
  }

  function Perform(r: Request, e: Effect): Request
    requires r.stack != []
  {
    var f := Top(r);
    match e
    case Become(phase, events) => r.(stack := Below(r) + [f.(phase := phase)], log := r.log + events)
    case Call(phase) => r.(stack := Below(r) + [f.(phase := phase), NewFrame(f.attempts + 1)])
    case Reply(phase, event, code) =>
      var f' := if Wraps(f.phase) then f.(status := code) else f;
      r.(stack := WriteThrough(Below(r), code) + [f'.(phase := phase)], log := r.log + [event])
    case Return =>
      var below := Below(r);
      r.(stack := if below == [] then [] else below[..|below| - 1] + [Resumed(below[|below| - 1])])
  }

  function SetConns(w: World, id: nat, delta: int): World
    requires id < |w.servers|
  {
    w.(servers := w.servers[id := w.servers[id].(conns := w.servers[id].conns + delta)])
  }

  function SetAlive(w: World, id: nat, alive: bool): World
    requires id < |w.servers|
  {
    w.(servers := w.servers[id := w.servers[id].(alive := alive)])
  }

  /** The position in the pool of the first backend of a URL. */
  function InPool(w: World, pool: seq<nat>, url: string): (i: Option<nat>)
    requires Known(w, pool)
    ensures i.Some? ==> i.value < |pool| && w.servers[pool[i.value]].url == url
    ensures i.None? ==> forall j :: 0 <= j < |pool| ==> w.servers[pool[j]].url != url
  {
    if pool == [] then None
    else if w.servers[pool[0]].url == url then Some(0)
    else
      var rest := InPool(w, pool[1..], url);
      assert forall j :: 1 <= j < |pool| ==> pool[j] == pool[1..][j - 1];
      if rest.Some? then Some(rest.value + 1) else None
  }

  /** MarkBackendStatus: only a backend that is in the pool changes. */
  function MarkStatus(w: World, url: string, alive: bool): World
    requires Known(w, w.pool)
  {
    var i := InPool(w, w.pool, url);
    if i.Some? then SetAlive(w, w.pool[i.value], alive) else w
  }

  function SetBreaker(w: World, url: string, s: B.State): World {
    w.(breakers := w.breakers[url := s])
  }

  /** What the step does to the shared state. */
  ghost function Touch(c: Settings, w: World, r: Request, ch: Choice): World
    requires r.stack != [] && KnownPhase(w, Top(r).phase) && Known(w, w.pool)
    requires Plan(c, w, r, ch).Some?
  {
    var f := Top(r);
    match f.phase
    case Filtering(all, next, kept) =>
      if next == |all| then w
      else SetBreaker(w, w.servers[all[next]].url, BreakerOf(w, w.servers[all[next]].url))
    case Asking(peer) =>
      var url := w.servers[peer].url;
      SetBreaker(w, url, B.Allow(c.breaker.value, BreakerOf(w, url), w.now).0)
    case Admitted(peer) => SetConns(w, peer, 1)
    case Marking(peer) => MarkStatus(w, w.servers[peer].url, false)
    case Blaming(peer) =>
      var url := w.servers[peer].url;
      SetBreaker(w, url, B.RecordFailure(c.breaker.value, BreakerOf(w, url), w.now))
    case Recording(peer) =>
      var url := w.servers[peer].url;
      if c.breaker.None? then w
      else if f.status >= 500 then
        SetBreaker(w, url, B.RecordFailure(c.breaker.value, BreakerOf(w, url), w.now))
      else SetBreaker(w, url, B.RecordSuccess(c.breaker.value, BreakerOf(w, url)))
    case Closing(peer) => SetConns(w, peer, -1)
    case _ => w
  }

  // ----- all requests together

  datatype System = System(world: World, requests: seq<Request>)

  datatype Action =
    | Arrive(verb: string, cookie: string)
    | Run(request: nat, choice: Choice)
    | Wait(seconds: real)
    | Judge(id: nat, alive: bool)
    | Add(url: string)
    | Remove(url: string)

  predicate Waits(p: Phase) {
    p.Delegated? || p.Passed?
  }

  /** The frames around the innermost one: each waits for the next, which has switched once more. */
  ghost predicate Outer(frames: seq<Frame>) {
    && |frames| <= MAX_SWITCHES
    && forall i :: 0 <= i < |frames| ==> frames[i].attempts == i && Waits(frames[i].phase)
  }

  /** A frame beyond the last switch only answers. */
  predicate Innermost(depth: nat, f: Frame) {
    && f.attempts == depth && !Waits(f.phase)
    && (depth >= MAX_SWITCHES ==> f.phase.Entered? || f.phase.Done?)
  }

  /** Every stack is one of nested calls. */
  ghost predicate Nested(stack: seq<Frame>) {
    stack == [] || (Outer(stack[..|stack| - 1]) && Innermost(|stack| - 1, stack[|stack| - 1]))
  }

  ghost predicate KnownStack(w: World, stack: seq<Frame>) {
    forall i :: 0 <= i < |stack| ==> KnownPhase(w, stack[i].phase)
  }

  ghost predicate Sound(s: System) {
    && Known(s.world, s.world.pool)
    && forall i :: 0 <= i < |s.requests| ==>
      Nested(s.requests[i].stack) && KnownStack(s.world, s.requests[i].stack)
  }

  /** Whether an action can happen; one that cannot leaves everything as it is. */
  ghost predicate Enabled(c: Settings, s: System, a: Action) {
    match a
    case Arrive(_, _) => true
    case Run(i, ch) =>
      && i < |s.requests| && s.requests[i].stack != []
      && KnownPhase(s.world, Top(s.requests[i]).phase) && Known(s.world, s.world.pool)
      && Plan(c, s.world, s.requests[i], ch).Some?
    case Wait(seconds) => seconds >= 0.0
    case Judge(id, _) => id < |s.world.servers|
    case Add(url) => Known(s.world, s.world.pool) && InPool(s.world, s.world.pool, url).None?
    case Remove(url) => Known(s.world, s.world.pool) && InPool(s.world, s.world.pool, url).Some?
  }

  /** One step of one request. */
  ghost function Moved(c: Settings, s: System, i: nat, ch: Choice): System
    requires Enabled(c, s, Run(i, ch))
  {
    var r := s.requests[i];
    System(Touch(c, s.world, r, ch), s.requests[i := Perform(r, Plan(c, s.world, r, ch).value)])
  }

  ghost function Next(c: Settings, s: System, a: Action): System {
    if !Enabled(c, s, a) then s
    else
      var w := s.world;
      match a
      case Arrive(name, cookie) =>
        s.(requests := s.requests + [Request(name, cookie, [NewFrame(0)], [])])
      case Run(i, ch) => Moved(c, s, i, ch)
      case Wait(seconds) => s.(world := w.(now := w.now + seconds))
      case Judge(id, alive) => s.(world := SetAlive(w, id, alive))
      case Add(url) =>
        s.(world := w.(servers := w.servers + [Server(url, true, 0)], pool := w.pool + [|w.servers|]))
      case Remove(url) =>
        var p := InPool(w, w.pool, url).value;
        s.(world := w.(pool := w.pool[..p] + w.pool[p + 1..]))
  }

  /** The system after a sequence of actions. */
  ghost function After(c: Settings, s: System, actions: seq<Action>): System {
    if actions == [] then s
    else Next(c, After(c, s, actions[..|actions| - 1]), actions[|actions| - 1])
  }

  /** No request has arrived, and nothing is counted yet. */
  ghost predicate Initial(s: System) {
    && s.requests == [] && s.world.breakers == map[] && Known(s.world, s.world.pool)
    && forall id :: 0 <= id < |s.world.servers| ==> s.world.servers[id].conns == 0
  }

  // ----- every reachable system is sound

  lemma PlanKnown(c: Settings, w: World, r: Request, ch: Choice)
    requires r.stack != [] && KnownPhase(w, Top(r).phase) && Known(w, w.pool) && Plan(c, w, r, ch).Some?
    ensures match Plan(c, w, r, ch).value
      case Become(p, _) => KnownPhase(w, p)
      case Call(p) => KnownPhase(w, p)
      case Reply(p, _, _) => KnownPhase(w, p)
      case Return => true
  {
    hide StickyPeer, B.Eligible, B.Allow;
  }

  /** The phases a step can lead to and the events it can leave, whatever the shared state is. */
  predicate Outline(c: Settings, w: World, r: Request, ch: Choice, e: Effect)
    requires r.stack != [] && KnownPhase(w, Top(r).phase)
  {
    var f := Top(r);
    match f.phase
    case Entered =>
      if f.attempts >= MAX_SWITCHES then e == Reply(Done, Refused, UNAVAILABLE)
      else
        && e.Become? && e.events == []
        && (if c.breaker.Some? then e.phase == Filtering(w.pool, 0, []) else e.phase.Selecting?)
    case Filtering(all, next, _) =>
      && e.Become? && e.events == []
      && (if next == |all| then e.phase.Selecting?
          else e.phase.Filtering? && e.phase.all == all && e.phase.next == next + 1)
    case Selecting(_) =>
      || e == Reply(Done, Refused, UNAVAILABLE)
      || (e.Become? && e.events == [] && (if c.breaker.Some? then e.phase.Asking? else e.phase.Admitted?))
    case Asking(peer) => e == Become(Admitted(peer), []) || e == Call(Passed)
    case Admitted(peer) =>
      e == Become(Trying(peer, 0),
        (if c.sticky then [Cookie(w.servers[peer].url)] else []) + [Reached(peer), Tried(peer)])
    case Trying(peer, retry) =>
      if ch.Answer? then e == Reply(Recording(peer), Answered(peer, ch.code), ch.code)
      else
        e == Become(if retry < MAX_RETRIES && r.Idempotent() then BackingOff(peer, retry) else Marking(peer), [])
    case BackingOff(peer, retry) =>
      if ch == Timer then e == Become(Trying(peer, retry + 1), [Tried(peer)])
      else ch == ClientGone && e == Become(Recording(peer), [Abandoned(peer)])
    case Marking(peer) => e == Become(if c.breaker.Some? then Blaming(peer) else Switching(peer), [])
    case Blaming(peer) => e == Become(Switching(peer), [])
    case Switching(peer) =>
      if f.attempts < MAX_SWITCHES then e == Call(Delegated(peer))
      else e == Reply(Recording(peer), Refused, UNAVAILABLE)
    case Delegated(_) => false
    case Passed => false
    case Recording(peer) => e == Become(Closing(peer), [Recorded(peer, f.status)])
    case Closing(peer) => e == Become(Done, [])
    case Done => e == Return
  }

  lemma PlanOutline(c: Settings, w: World, r: Request, ch: Choice)
    requires r.stack != [] && KnownPhase(w, Top(r).phase) && Plan(c, w, r, ch).Some?
    ensures Outline(c, w, r, ch, Plan(c, w, r, ch).value)
  {
    hide StickyPeer, B.Eligible, B.Allow, MayPick, KnownPhase;
  }

  /** The innermost frame after a step. */
  lemma PerformTop(r: Request, e: Effect)
    requires r.stack != [] && Nested(r.stack)
    ensures var r' := Perform(r, e);
      match e
      case Become(p, _) => r'.stack != [] && Top(r') == Top(r).(phase := p)
      case Call(_) => r'.stack != [] && Top(r') == NewFrame(Top(r).attempts + 1)
      case Reply(p, _, code) => r'.stack != [] &&
        Top(r') == Top(r).(phase := p, status := if Wraps(Top(r).phase) then code else Top(r).status)
      case Return => r'.stack == [] || Top(r').phase.Recording? || Top(r').phase.Done?
  {
    hide WriteThrough;
    NestedMeans(r);
  }

  lemma PlanShape(c: Settings, w: World, r: Request, ch: Choice)
    requires r.stack != [] && KnownPhase(w, Top(r).phase) && Plan(c, w, r, ch).Some?
    ensures match Plan(c, w, r, ch).value
      case Become(p, _) => !p.Entered? && !Waits(p) && (Top(r).phase.Entered? ==> Top(r).attempts < MAX_SWITCHES)
      case Call(p) => Waits(p) && !Top(r).phase.Entered?
      case Reply(p, _, _) => p.Done? || (p.Recording? && !Top(r).phase.Entered?)
      case Return => true
    ensures Top(r).phase.Done? <==> Plan(c, w, r, ch).value.Return?
  {
    hide Plan, KnownPhase;
    PlanOutline(c, w, r, ch);
  }

  lemma TouchKeepsServers(c: Settings, w: World, r: Request, ch: Choice)
    requires r.stack != [] && KnownPhase(w, Top(r).phase) && Known(w, w.pool) && Plan(c, w, r, ch).Some?
    ensures var w' := Touch(c, w, r, ch);
      && |w'.servers| == |w.servers| && w'.pool == w.pool && w'.now == w.now
      && forall id :: 0 <= id < |w.servers| ==> w'.servers[id].url == w.servers[id].url
  {
    hide Plan, B.Allow, B.RecordFailure, B.RecordSuccess, BreakerOf;
  }

  lemma NestedOn(outer: seq<Frame>, f: Frame)
    requires Outer(outer) && Innermost(|outer|, f)
    ensures Nested(outer + [f])
  {
    assert (outer + [f])[..|outer|] == outer;
  }

  lemma OuterGrows(outer: seq<Frame>, f: Frame)
    requires Outer(outer) && |outer| < MAX_SWITCHES && f.attempts == |outer| && Waits(f.phase)
    ensures Outer(outer + [f])
  {
  }

  lemma OuterThrough(outer: seq<Frame>, code: int)
    requires Outer(outer)
    ensures Outer(WriteThrough(outer, code))
  {
  }

  lemma PerformNested(c: Settings, w: World, r: Request, ch: Choice)
    requires r.stack != [] && KnownPhase(w, Top(r).phase) && Nested(r.stack) && Plan(c, w, r, ch).Some?
    ensures Nested(Perform(r, Plan(c, w, r, ch).value).stack)
  {
    hide Plan, KnownPhase, Nested, Outer, WriteThrough, Resumed;
    PlanShape(c, w, r, ch);
    NestedMeans(r);
    var f, below := Top(r), Below(r);
    match Plan(c, w, r, ch).value {
      case Become(phase, _) =>
        NestedOn(below, f.(phase := phase));
      case Call(phase) =>
        OuterGrows(below, f.(phase := phase));
        NestedOn(below + [f.(phase := phase)], NewFrame(f.attempts + 1));
        assert Perform(r, Call(phase)).stack == below + [f.(phase := phase)] + [NewFrame(f.attempts + 1)];
      case Reply(phase, _, code) =>
        OuterThrough(below, code);
        NestedOn(WriteThrough(below, code), (if Wraps(f.phase) then f.(status := code) else f).(phase := phase));
      case Return =>
        NestedAfterReturn(below);
    }
  }

  lemma NestedMeans(r: Request)
    requires r.stack != [] && Nested(r.stack)
    ensures Outer(Below(r)) && Innermost(|Below(r)|, Top(r))
  {
  }

  lemma NestedAfterReturn(below: seq<Frame>)
    requires Outer(below)
    ensures Nested(if below == [] then [] else below[..|below| - 1] + [Resumed(below[|below| - 1])])
  {
    if below != [] { NestedOn(below[..|below| - 1], Resumed(below[|below| - 1])); }
  }

  lemma KnownGrows(w: World, w': World, stack: seq<Frame>)
    requires KnownStack(w, stack) && |w.servers| <= |w'.servers|
    ensures KnownStack(w', stack)
  {
  }

  lemma KnownOn(w: World, below: seq<Frame>, f: Frame)
    requires KnownStack(w, below) && KnownPhase(w, f.phase)
    ensures KnownStack(w, below + [f])
  {
    hide KnownPhase;
  }

  lemma KnownBelow(w: World, stack: seq<Frame>)
    requires KnownStack(w, stack) && stack != []
    ensures KnownStack(w, stack[..|stack| - 1]) && KnownPhase(w, stack[|stack| - 1].phase)
  {
    hide KnownPhase;
  }

  lemma KnownThrough(w: World, stack: seq<Frame>, code: int)
    requires KnownStack(w, stack)
    ensures KnownStack(w, WriteThrough(stack, code))
  {
    hide KnownPhase;
  }

  lemma PerformKnown(c: Settings, w: World, r: Request, ch: Choice)
    requires r.stack != [] && KnownStack(w, r.stack) && Known(w, w.pool) && Plan(c, w, r, ch).Some?
    ensures KnownStack(w, Perform(r, Plan(c, w, r, ch).value).stack)
  {
    hide Plan, KnownPhase, KnownStack, WriteThrough, Resumed;
    KnownBelow(w, r.stack);
    PlanKnown(c, w, r, ch);
    var f, below := Top(r), Below(r);
    match Plan(c, w, r, ch).value {
      case Become(phase, _) =>
        KnownOn(w, below, f.(phase := phase));
      case Call(phase) =>
        KnownOn(w, below, f.(phase := phase));
        SimplePhasesKnown(w, f.attempts + 1);
        KnownOn(w, below + [f.(phase := phase)], NewFrame(f.attempts + 1));
        assert Perform(r, Call(phase)).stack == below + [f.(phase := phase)] + [NewFrame(f.attempts + 1)];
      case Reply(phase, _, code) =>
        KnownThrough(w, below, code);
        KnownOn(w, WriteThrough(below, code), (if Wraps(f.phase) then f.(status := code) else f).(phase := phase));
      case Return =>
        KnownAfterReturn(w, below);
    }
  }

  lemma KnownAfterReturn(w: World, below: seq<Frame>)
    requires KnownStack(w, below)
    ensures KnownStack(w, if below == [] then [] else below[..|below| - 1] + [Resumed(below[|below| - 1])])
  {
    hide KnownPhase, KnownStack, Resumed;
    if below == [] {
      EmptyKnown(w);
    } else {
      KnownBelow(w, below);
      ResumedKnown(w, below[|below| - 1]);
      KnownOn(w, below[..|below| - 1], Resumed(below[|below| - 1]));
    }
  }

  lemma EmptyKnown(w: World)
    ensures KnownStack(w, [])
  {
  }

  lemma SimplePhasesKnown(w: World, attempts: nat)
    ensures KnownPhase(w, NewFrame(attempts).phase)
  {
  }

  lemma ResumedKnown(w: World, f: Frame)
    requires KnownPhase(w, f.phase)
    ensures KnownPhase(w, Resumed(f).phase)
  {
  }

  lemma SoundStep(c: Settings, s: System, a: Action)
    requires Sound(s)
    ensures Sound(Next(c, s, a))
  {
    hide Plan, Touch, Perform, Nested, KnownStack, KnownPhase;
    if Enabled(c, s, a) {
      var s' := Next(c, s, a);
      match a {
        case Run(i, ch) =>
          TopKnown(s.world, s.requests[i]);
          TouchKeepsServers(c, s.world, s.requests[i], ch);
          PerformNested(c, s.world, s.requests[i], ch);
          PerformKnown(c, s.world, s.requests[i], ch);
          forall j | 0 <= j < |s'.requests| ensures KnownStack(s'.world, s'.requests[j].stack) {
            KnownGrows(s.world, s'.world, s'.requests[j].stack);
          }
        case Arrive(_, _) =>
          FreshStack(s.world);
        case _ =>
          forall j | 0 <= j < |s.requests| ensures KnownStack(s'.world, s.requests[j].stack) {
            KnownGrows(s.world, s'.world, s.requests[j].stack);
          }
      }
    }
  }

  lemma TopKnown(w: World, r: Request)
    requires KnownStack(w, r.stack)
    ensures r.stack != [] ==> KnownPhase(w, Top(r).phase)
  {
  }

  lemma FreshStack(w: World)
    ensures Nested([NewFrame(0)]) && KnownStack(w, [NewFrame(0)])
  {
  }

  lemma InitiallySound(s: System)
    requires Initial(s)
    ensures Sound(s) && s.requests == []
  {
  }

  /** Every reachable system is sound. */
  lemma {:induction false} AlwaysSound(c: Settings, s: System, actions: seq<Action>)
    requires Sound(s)
    ensures Sound(After(c, s, actions))
  {
    hide Next, Sound;
    if actions != [] {
      AlwaysSound(c, s, actions[..|actions| - 1]);
      SoundStep(c, After(c, s, actions[..|actions| - 1]), actions[|actions| - 1]);
    }
  }
}
