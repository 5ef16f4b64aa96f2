/** What open dispatch frames owe: connections to count down, outcomes to record, probe permits to give back. */
module DispatchAccounts {
  import opened Common
  import opened Proxy
  import B = CircuitBreaker

  /**
    A connection is owed from IncrConns to DecrConns, a record from dispatch to it, a verdict from `Allow` to it.
    A dispatch is `Unsent` from admission to its first try, `Unblamed` from there until it fails or ends the
    request, and `Settling` from then on to its record.
   */
  datatype Account = Connection | Record | Verdict | Unsent | Unblamed | Settling

  predicate Owes(a: Account, p: Phase, id: nat) {
    && HasPeer(p) && p.peer == id && !p.Asking?
    && (p.Admitted? ==> a == Verdict || a == Unsent)
    && (p.Closing? ==> a == Connection)
    && (a == Unsent ==> p.Admitted?)
    && (a == Unblamed ==> p.Trying? || p.BackingOff? || p.Marking? || p.Blaming?)
    && (a == Settling ==> p.Switching? || p.Delegated? || p.Recording?)
  }

  /** What an account gains when a dispatch turns from unblamed to settling. */
  function Shift(a: Account): int {
    if a == Settling then 1 else if a == Unblamed then -1 else 0
  }

  function Unit(a: Account, p: Phase, id: nat): nat {
    if Owes(a, p, id) then 1 else 0
  }

  function Owed(a: Account, stack: seq<Frame>, id: nat): nat {
    if stack == [] then 0
    else Owed(a, stack[..|stack| - 1], id) + Unit(a, stack[|stack| - 1].phase, id)
  }

  lemma OwedOn(a: Account, below: seq<Frame>, f: Frame, id: nat)
    ensures Owed(a, below + [f], id) == Owed(a, below, id) + Unit(a, f.phase, id)
  {
    assert (below + [f])[..|below|] == below;
  }

  lemma {:induction false} OwedThrough(a: Account, stack: seq<Frame>, code: int, id: nat)
    ensures Owed(a, WriteThrough(stack, code), id) == Owed(a, stack, id)
  {
    hide Owes;
    if stack != [] {
      var s := WriteThrough(stack, code);
      OwedThrough(a, stack[..|stack| - 1], code, id);
      assert s[..|s| - 1] == WriteThrough(stack[..|stack| - 1], code);
    }
  }

  /** The phase the frame that moved is in afterwards; a frame that returned owes no more than `Done` does. */
  function Became(e: Effect): Phase {
    if e.Return? then Done else e.phase
  }

  lemma PerformOwed(r: Request, e: Effect, a: Account, id: nat)
    requires r.stack != [] && Nested(r.stack) && (Top(r).phase.Done? <==> e.Return?)
    ensures Owed(a, Perform(r, e).stack, id) ==
      Owed(a, r.stack, id) - Unit(a, Top(r).phase, id) + Unit(a, Became(e), id)
  {
    hide Owed, Nested;
    NestedMeans(r);
    var f, below := Top(r), Below(r);
    assert r.stack == below + [f];
    OwedOn(a, below, f, id);
    match e {
      case Become(phase, _) =>
        OwedOn(a, below, f.(phase := phase), id);
      case Call(phase) =>
        OwedOn(a, below, f.(phase := phase), id);
        OwedOn(a, below + [f.(phase := phase)], NewFrame(f.attempts + 1), id);
        assert Perform(r, e).stack == below + [f.(phase := phase)] + [NewFrame(f.attempts + 1)];
      case Reply(phase, _, code) =>
        OwedThrough(a, below, code, id);
        OwedOn(a, WriteThrough(below, code), (if Wraps(f.phase) then f.(status := code) else f).(phase := phase), id);
      case Return =>
        ReturnOwed(a, below, id);
    }
  }

  lemma ReturnOwed(a: Account, below: seq<Frame>, id: nat)
    requires Outer(below)
    ensures Owed(a, if below == [] then [] else below[..|below| - 1] + [Resumed(below[|below| - 1])], id)
      == Owed(a, below, id)
  {
    if below != [] { OwedOn(a, below[..|below| - 1], Resumed(below[|below| - 1]), id); }
  }

  /** A move opens an account on admission or dispatch and closes it when the record or the connection is settled. */
  lemma OwedMove(c: Settings, w: World, r: Request, ch: Choice, a: Account, id: nat)
    requires r.stack != [] && Nested(r.stack) && KnownPhase(w, Top(r).phase) && Plan(c, w, r, ch).Some?
    ensures Owed(a, Perform(r, Plan(c, w, r, ch).value).stack, id) - Owed(a, r.stack, id) ==
      match Top(r).phase
      case Selecting(_) => Unit(a, Became(Plan(c, w, r, ch).value), id)
      case Asking(_) => Unit(a, Became(Plan(c, w, r, ch).value), id)
      case Admitted(peer) =>
        if id != peer || a == Verdict || a == Settling then 0 else if a == Unsent then -1 else 1
      case Trying(peer, _) => if id == peer && ch.Answer? then Shift(a) else 0
      case BackingOff(peer, _) => if id == peer && ch == ClientGone then Shift(a) else 0
      case Marking(peer) => if id == peer && c.breaker.None? then Shift(a) else 0
      case Blaming(peer) => if id == peer then Shift(a) else 0
      case Recording(peer) => if id == peer && (a == Record || a == Verdict || a == Settling) then -1 else 0
      case Closing(peer) => if id == peer && a == Connection then -1 else 0
      case _ => 0
  {
    hide Plan, KnownPhase, Owed, Nested, Perform;
    PlanOutline(c, w, r, ch);
    PerformOwed(r, Plan(c, w, r, ch).value, a, id);
  }

  function TotalOwed(a: Account, requests: seq<Request>, id: nat): nat {
    if requests == [] then 0
    else TotalOwed(a, requests[..|requests| - 1], id) + Owed(a, requests[|requests| - 1].stack, id)
  }

  lemma {:induction false} TotalUpdated(a: Account, requests: seq<Request>, i: nat, r: Request, id: nat)
    requires i < |requests|
    ensures TotalOwed(a, requests[i := r], id) ==
      TotalOwed(a, requests, id) - Owed(a, requests[i].stack, id) + Owed(a, r.stack, id)
  {
    hide Owed;
    var n := |requests| - 1;
    if i == n {
      assert requests[i := r][..n] == requests[..n];
    } else {
      TotalUpdated(a, requests[..n], i, r, id);
      assert requests[i := r][..n] == requests[..n][i := r];
    }
  }

  lemma {:induction false} NoneOwedByUnknown(a: Account, w: World, stack: seq<Frame>, id: nat)
    requires KnownStack(w, stack) && id >= |w.servers|
    ensures Owed(a, stack, id) == 0
  {
    if stack != [] {
      NoneOwedByUnknown(a, w, stack[..|stack| - 1], id);
      assert KnownPhase(w, stack[|stack| - 1].phase);
    }
  }

  lemma {:induction false} NoneOwedBeyond(a: Account, s: System, requests: seq<Request>, id: nat)
    requires id >= |s.world.servers|
    requires forall i :: 0 <= i < |requests| ==> KnownStack(s.world, requests[i].stack)
    ensures TotalOwed(a, requests, id) == 0
  {
    hide Owed, KnownStack;
    if requests != [] {
      NoneOwedBeyond(a, s, requests[..|requests| - 1], id);
      NoneOwedByUnknown(a, s.world, requests[|requests| - 1].stack, id);
    }
  }

  // ----- active connections

  /** Each backend counts as many connections as there are open dispatch frames on it. */
  ghost predicate Accounted(s: System) {
    forall id :: 0 <= id < |s.world.servers| ==>
      s.world.servers[id].conns == TotalOwed(Connection, s.requests, id)
  }

  lemma TouchConns(c: Settings, w: World, r: Request, ch: Choice, id: nat)
    requires r.stack != [] && KnownPhase(w, Top(r).phase) && Known(w, w.pool) && Plan(c, w, r, ch).Some?
    requires id < |w.servers|
    ensures |Touch(c, w, r, ch).servers| == |w.servers|
    ensures Touch(c, w, r, ch).servers[id].conns == w.servers[id].conns +
      match Top(r).phase
      case Admitted(peer) => if id == peer then 1 else 0
      case Closing(peer) => if id == peer then -1 else 0
      case _ => 0
  {
    hide Plan, B.Allow, B.RecordFailure, B.RecordSuccess, BreakerOf;
  }

  lemma AccountedMove(c: Settings, s: System, i: nat, ch: Choice)
    requires Sound(s) && Accounted(s) && Enabled(c, s, Run(i, ch))
    ensures Accounted(Moved(c, s, i, ch))
  {
    hide Plan, Touch, Perform, Nested, KnownStack, KnownPhase, Owed, TotalOwed;
    var r, s' := s.requests[i], Moved(c, s, i, ch);
    TouchKeepsServers(c, s.world, r, ch);
    forall id | 0 <= id < |s'.world.servers|
      ensures s'.world.servers[id].conns == TotalOwed(Connection, s'.requests, id)
    {
      TouchConns(c, s.world, r, ch, id);
      OwedMove(c, s.world, r, ch, Connection, id);
      if Top(r).phase.Selecting? || Top(r).phase.Asking? { PickingOwesNothing(c, s.world, r, ch, Connection, id); }
      TotalUpdated(Connection, s.requests, i, s'.requests[i], id);
    }
  }

  lemma PickingOwesNothing(c: Settings, w: World, r: Request, ch: Choice, a: Account, id: nat)
    requires r.stack != [] && KnownPhase(w, Top(r).phase) && Plan(c, w, r, ch).Some? && a != Verdict && a != Unsent
    requires Top(r).phase.Selecting? || Top(r).phase.Asking?
    ensures Unit(a, Became(Plan(c, w, r, ch).value), id) == 0
  {
    hide Plan, KnownPhase;
    PlanOutline(c, w, r, ch);
  }

  lemma AccountedStep(c: Settings, s: System, a: Action)
    requires Sound(s) && Accounted(s)
    ensures Accounted(Next(c, s, a))
  {
    hide Plan, Touch, Perform, Nested, KnownStack, Owed, TotalOwed, KnownPhase;
    if Enabled(c, s, a) {
      match a {
        case Run(i, ch) => AccountedMove(c, s, i, ch);
        case Arrive(name, cookie) =>
          var r := Request(name, cookie, [NewFrame(0)], []);
          forall id | 0 <= id < |s.world.servers|
            ensures TotalOwed(Connection, s.requests + [r], id) == TotalOwed(Connection, s.requests, id)
          {
            ArrivalOwesNothing(Connection, s.requests, r, id);
          }
        case Add(url) => NoneOwedBeyond(Connection, s, s.requests, |s.world.servers|);
        case _ =>
      }
    }
  }

  lemma ArrivalOwesNothing(a: Account, requests: seq<Request>, r: Request, id: nat)
    requires r.stack == [NewFrame(0)]
    ensures TotalOwed(a, requests + [r], id) == TotalOwed(a, requests, id)
  {
    assert (requests + [r])[..|requests|] == requests;
    assert [] + [NewFrame(0)] == r.stack;
    OwedOn(a, [], NewFrame(0), id);
  }

  lemma {:induction false} AlwaysAccounted(c: Settings, s: System, actions: seq<Action>)
    requires Sound(s) && Accounted(s)
    ensures Accounted(After(c, s, actions))
  {
    hide Next, Sound, Accounted;
    if actions != [] {
      var front := actions[..|actions| - 1];
      AlwaysAccounted(c, s, front);
      AlwaysSound(c, s, front);
      AccountedStep(c, After(c, s, front), actions[|actions| - 1]);
    }
  }

  lemma {:induction false} InitiallyNothingOwed(a: Account, requests: seq<Request>, id: nat)
    requires forall i :: 0 <= i < |requests| ==> requests[i].stack == []
    ensures TotalOwed(a, requests, id) == 0
  {
    if requests != [] { InitiallyNothingOwed(a, requests[..|requests| - 1], id); }
  }

  /**
    From a start with no request in flight and every count at zero, each backend always counts its open dispatch
    frames, in every interleaving; no count is ever negative, and all are back at zero once every request is over.
   */
  lemma ConnectionAccounting(c: Settings, s: System, actions: seq<Action>, id: nat)
    requires Initial(s) && id < |After(c, s, actions).world.servers|
    ensures var t := After(c, s, actions);
      && t.world.servers[id].conns == TotalOwed(Connection, t.requests, id) >= 0
      && ((forall i :: 0 <= i < |t.requests| ==> t.requests[i].stack == []) ==> t.world.servers[id].conns == 0)
  {
    hide After;
    var t := After(c, s, actions);
    AlwaysAccounted(c, s, actions);
    if forall i :: 0 <= i < |t.requests| ==> t.requests[i].stack == [] {
      InitiallyNothingOwed(Connection, t.requests, id);
    }
  }

  // ----- probe permits

  /** Half-open, with the permit out. */
  predicate Drained(w: World, url: string) {
    url in w.breakers && w.breakers[url].phase == B.HalfOpen && !w.breakers[url].permit
  }

  ghost predicate HeldBy(s: System, url: string, i: nat, id: nat) {
    && i < |s.requests| && id < |s.world.servers| && s.world.servers[id].url == url
    && Owed(Verdict, s.requests[i].stack, id) > 0
  }

  /** A frame that passed `Allow` on a backend of this URL has not made its final record yet. */
  ghost predicate Held(s: System, url: string) {
    exists i: nat, id: nat :: HeldBy(s, url, i, id)
  }

  ghost predicate PermitsHeld(s: System) {
    forall url :: Drained(s.world, url) ==> Held(s, url)
  }

  /** A step leaves a breaker drained only if it was and this is no record on it, or by taking the permit. */
  lemma TouchDrains(c: Settings, w: World, r: Request, ch: Choice, url: string)
    requires r.stack != [] && KnownPhase(w, Top(r).phase) && Known(w, w.pool) && Plan(c, w, r, ch).Some?
    requires Drained(Touch(c, w, r, ch), url)
    ensures var p := Top(r).phase;
      || (Drained(w, url) && (p.Recording? ==> w.servers[p.peer].url != url || c.breaker.None?))
      || (p.Asking? && w.servers[p.peer].url == url && Plan(c, w, r, ch) == Some(Become(Admitted(p.peer), [])))
  {
    hide StickyPeer, MayPick, InPool;
  }

  lemma PermitsMove(c: Settings, s: System, i: nat, ch: Choice, url: string)
    requires Sound(s) && PermitsHeld(s) && Enabled(c, s, Run(i, ch)) && c.breaker.Some?
    requires Drained(Moved(c, s, i, ch).world, url)
    ensures Held(Moved(c, s, i, ch), url)
  {
    hide Plan, Touch, Perform, Nested, KnownStack, Owed, Drained;
    var r, s' := s.requests[i], Moved(c, s, i, ch);
    TouchKeepsServers(c, s.world, r, ch);
    TouchDrains(c, s.world, r, ch, url);
    var p := Top(r).phase;
    if p.Asking? && s.world.servers[p.peer].url == url
      && Plan(c, s.world, r, ch) == Some(Become(Admitted(p.peer), [])) {
      OwedMove(c, s.world, r, ch, Verdict, p.peer);
      assert HeldBy(s', url, i, p.peer);
    } else {
      var j: nat, id: nat :| HeldBy(s, url, j, id);
      OwedMove(c, s.world, r, ch, Verdict, id);
      assert HeldBy(s', url, j, id);
    }
  }

  lemma PermitsStep(c: Settings, s: System, a: Action)
    requires Sound(s) && PermitsHeld(s) && c.breaker.Some?
    ensures PermitsHeld(Next(c, s, a))
  {
    hide Plan, Touch, Perform, Nested, KnownStack, KnownPhase, Owed;
    var s' := Next(c, s, a);
    if Enabled(c, s, a) {
      forall url | Drained(s'.world, url) ensures Held(s', url) {
        if a.Run? {
          PermitsMove(c, s, a.request, a.choice, url);
        } else {
          assert s'.world.breakers == s.world.breakers;
          assert Drained(s.world, url) && Held(s, url);
          var i: nat, id: nat :| HeldBy(s, url, i, id);
          assert s'.world.servers[id].url == url && s'.requests[i] == s.requests[i];
          assert HeldBy(s', url, i, id);
        }
      }
    }
  }

  lemma {:induction false} AlwaysHeld(c: Settings, s: System, actions: seq<Action>)
    requires Sound(s) && PermitsHeld(s) && c.breaker.Some?
    ensures PermitsHeld(After(c, s, actions))
  {
    hide Next, Sound, PermitsHeld;
    if actions != [] {
      var front := actions[..|actions| - 1];
      AlwaysHeld(c, s, front);
      AlwaysSound(c, s, front);
      PermitsStep(c, After(c, s, front), actions[|actions| - 1]);
    }
  }

  /**
    No leaked probe permit: in every reachable state, a half-open breaker whose permit is out has a frame on a
    backend of its URL that passed `Allow` and has yet to record; so with no request in flight every half-open
    breaker admits the next probe.
   */
  lemma NoLeakedPermit(c: Settings, s: System, actions: seq<Action>, url: string)
    requires Initial(s) && c.breaker.Some? && url in After(c, s, actions).world.breakers
    requires After(c, s, actions).world.breakers[url].phase == B.HalfOpen
    ensures var t := After(c, s, actions);
      && (!t.world.breakers[url].permit ==> Held(t, url))
      && ((forall i :: 0 <= i < |t.requests| ==> t.requests[i].stack == []) ==>
        B.Allow(c.breaker.value, t.world.breakers[url], t.world.now).1)
  {
    hide After;
    AlwaysHeld(c, s, actions);
  }
}
