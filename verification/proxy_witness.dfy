/** A run in which as many overlapping dispatches as the threshold open a breaker, though every request is answered. */
module DispatchWitness {
  import opened Common
  import opened Proxy
  import opened DispatchAccounts
  import opened DispatchRequests
  import opened DispatchFailover
  import opened DispatchOverlap
  import opened DispatchTermination
  import B = CircuitBreaker
  import T = BreakerTraces

  const FAILING: string := "http://a"
  const ANSWERING: string := "http://b"

  /** Two backends, and nothing has happened. */
  function Start(): System {
    System(World([Server(FAILING, true, 0), Server(ANSWERING, true, 0)], [0, 1], map[], 0.0), [])
  }

  /** The world during the run: how the failing backend's flag and breaker stand. */
  ghost predicate Stage(w: World, alive: bool, b: B.State) {
    && |w.servers| == 2 && w.servers[0].url == FAILING && w.servers[1].url == ANSWERING
    && w.servers[0].alive == alive && w.servers[1].alive
    && w.pool == [0, 1] && w.now == 0.0
    && BreakerOf(w, FAILING) == b && BreakerOf(w, ANSWERING) == B.Fresh()
  }

  predicate Plain(r: Request) {
    !r.Idempotent() && r.cookie == ""
  }

  /** One step of a request on a world of its own; a choice that does not fit changes nothing. */
  ghost function One(c: Settings, w: World, r: Request, ch: Choice): (World, Request) {
    if r.stack != [] && KnownPhase(w, Top(r).phase) && Known(w, w.pool) && Plan(c, w, r, ch).Some? then
      (Touch(c, w, r, ch), Perform(r, Plan(c, w, r, ch).value))
    else (w, r)
  }

  ghost function Solo(c: Settings, w: World, r: Request, chs: seq<Choice>): (World, Request) {
    if chs == [] then (w, r)
    else
      var p := Solo(c, w, r, chs[..|chs| - 1]);
      One(c, p.0, p.1, chs[|chs| - 1])
  }

  /** Some choices lead a request there. */
  ghost predicate Leads(c: Settings, w: World, r: Request, w': World, r': Request) {
    exists chs :: Solo(c, w, r, chs) == (w', r')
  }

  lemma LeadsNowhere(c: Settings, w: World, r: Request)
    ensures Leads(c, w, r, w, r)
  {
    assert Solo(c, w, r, []) == (w, r);
  }

  lemma LeadsOn(c: Settings, w: World, r: Request, w': World, r': Request, ch: Choice)
    requires Leads(c, w, r, w', r')
    ensures Leads(c, w, r, One(c, w', r', ch).0, One(c, w', r', ch).1)
  {
    hide One;
    var chs :| Solo(c, w, r, chs) == (w', r');
    assert (chs + [ch])[..|chs|] == chs;
    assert Solo(c, w, r, chs + [ch]) == One(c, w', r', ch);
  }

  function Runs(i: nat, chs: seq<Choice>): seq<Action> {
    if chs == [] then [] else Runs(i, chs[..|chs| - 1]) + [Run(i, chs[|chs| - 1])]
  }

  lemma {:induction false} AfterBoth(c: Settings, s: System, first: seq<Action>, second: seq<Action>)
    ensures After(c, s, first + second) == After(c, After(c, s, first), second)
  {
    hide Next;
    if second == [] {
      assert first + second == first;
    } else {
      var n := |second| - 1;
      assert (first + second)[..|first + second| - 1] == first + second[..n];
      AfterBoth(c, s, first, second[..n]);
    }
  }

  lemma {:induction false} SoloRuns(c: Settings, s: System, i: nat, chs: seq<Choice>)
    requires i < |s.requests|
    ensures var p := Solo(c, s.world, s.requests[i], chs);
      After(c, s, Runs(i, chs)) == System(p.0, s.requests[i := p.1])
    ensures forall k :: 0 <= k < |Runs(i, chs)| ==> Quiet(Runs(i, chs)[k])
  {
    hide Plan, Touch, Perform, KnownPhase;
    if chs == [] {
      assert s.requests[i := s.requests[i]] == s.requests;
    } else {
      var front, ch := chs[..|chs| - 1], chs[|chs| - 1];
      SoloRuns(c, s, i, front);
      var p := Solo(c, s.world, s.requests[i], front);
      var t := After(c, s, Runs(i, front));
      assert Runs(i, chs)[..|Runs(i, chs)| - 1] == Runs(i, front);
      assert t.requests[i := t.requests[i]] == t.requests;
    }
  }

  // ----- single steps

  /** A step within the innermost frame. */
  lemma Within(c: Settings, w: World, r: Request, ch: Choice, p: Phase, events: seq<Event>)
    requires r.stack != [] && KnownPhase(w, Top(r).phase) && Known(w, w.pool)
    requires Plan(c, w, r, ch) == Some(Become(p, events))
    ensures var r' := One(c, w, r, ch).1;
      && r'.stack == Below(r) + [Top(r).(phase := p)] && r'.log == r.log + events
      && r'.verb == r.verb && r'.cookie == r.cookie
    ensures One(c, w, r, ch).0 == Touch(c, w, r, ch)
  {
    hide Plan, Touch;
  }

  /** Where the innermost frame of a plain request stands, on which outer frames, and what the client saw. */
  ghost predicate Stands(r: Request, below: seq<Frame>, f: Frame, status: Option<int>) {
    Plain(r) && r.stack == below + [f] && FinalStatus(r.log) == status
  }

  lemma StandsTop(r: Request, below: seq<Frame>, f: Frame, status: Option<int>)
    requires Stands(r, below, f, status)
    ensures r.stack != [] && Top(r) == f && Below(r) == below
  {
    assert (below + [f])[..|below|] == below;
  }

  lemma WithinStands(c: Settings, w: World, r: Request, ch: Choice, p: Phase, events: seq<Event>,
                     below: seq<Frame>, f: Frame, status: Option<int>)
    requires Stands(r, below, f, status) && KnownPhase(w, f.phase) && Known(w, w.pool)
    requires r.stack != [] && Top(r) == f && Plan(c, w, r, ch) == Some(Become(p, events))
    requires forall k :: 0 <= k < |events| ==> !Settles(events[k])
    ensures Stands(One(c, w, r, ch).1, below, f.(phase := p), status)
    ensures One(c, w, r, ch).0 == Touch(c, w, r, ch)
  {
    hide Plan, Touch;
    StandsTop(r, below, f, status);
    Within(c, w, r, ch, p, events);
    FinalStatusThrough(r.log, events);
  }

  lemma {:induction false} FinalStatusThrough(log: seq<Event>, events: seq<Event>)
    requires forall k :: 0 <= k < |events| ==> !Settles(events[k])
    ensures FinalStatus(log + events) == FinalStatus(log)
  {
    if events == [] {
      assert log + events == log;
    } else {
      var n := |events| - 1;
      FinalStatusThrough(log, events[..n]);
      FinalStatusOn(log + events[..n], events[n]);
      assert log + events == log + events[..n] + [events[n]];
    }
  }

  lemma Enter(c: Settings, w: World, r: Request, below: seq<Frame>, f: Frame, status: Option<int>,
              alive: bool, b: B.State) returns (w': World, r': Request)
    requires Stage(w, alive, b) && Stands(r, below, f, status) && c.breaker.Some?
    requires f.phase.Entered? && f.attempts < MAX_SWITCHES
    ensures (w', r') == One(c, w, r, Go) && Stage(w', alive, b)
    ensures Stands(r', below, f.(phase := Filtering([0, 1], 0, [])), status)
  {
    StandsTop(r, below, f, status);
    WithinStands(c, w, r, Go, Filtering([0, 1], 0, []), [], below, f, status);
    w', r' := One(c, w, r, Go).0, One(c, w, r, Go).1;
  }

  lemma FilterFirst(c: Settings, w: World, r: Request, below: seq<Frame>, f: Frame, status: Option<int>,
                    alive: bool, b: B.State) returns (w': World, r': Request, kept: seq<nat>)
    requires Stage(w, alive, b) && Stands(r, below, f, status) && c.breaker.Some?
    requires f.phase == Filtering([0, 1], 0, [])
    ensures (w', r') == One(c, w, r, Go) && Stage(w', alive, b)
    ensures kept == if B.Eligible(c.breaker.value, b, 0.0) then [0] else []
    ensures Stands(r', below, f.(phase := Filtering([0, 1], 1, kept)), status)
  {
    hide B.Eligible;
    StandsTop(r, below, f, status);
    kept := if B.Eligible(c.breaker.value, b, 0.0) then [0] else [];
    assert [] + [0] == [0];
    WithinStands(c, w, r, Go, Filtering([0, 1], 1, kept), [], below, f, status);
    w', r' := One(c, w, r, Go).0, One(c, w, r, Go).1;
  }

  lemma FilterSecond(c: Settings, w: World, r: Request, below: seq<Frame>, f: Frame, status: Option<int>,
                     alive: bool, b: B.State, kept: seq<nat>) returns (w': World, r': Request)
    requires Stage(w, alive, b) && Stands(r, below, f, status) && c.breaker.Some?
    requires f.phase == Filtering([0, 1], 1, kept) && Known(w, kept)
    ensures (w', r') == One(c, w, r, Go) && Stage(w', alive, b)
    ensures Stands(r', below, f.(phase := Filtering([0, 1], 2, kept + [1])), status)
  {
    StandsTop(r, below, f, status);
    WithinStands(c, w, r, Go, Filtering([0, 1], 2, kept + [1]), [], below, f, status);
    w', r' := One(c, w, r, Go).0, One(c, w, r, Go).1;
  }

  lemma Filtered(c: Settings, w: World, r: Request, below: seq<Frame>, f: Frame, status: Option<int>,
                 alive: bool, b: B.State, kept: seq<nat>) returns (w': World, r': Request)
    requires Stage(w, alive, b) && Stands(r, below, f, status) && c.breaker.Some?
    requires f.phase == Filtering([0, 1], 2, kept) && Known(w, kept) && kept != []
    ensures (w', r') == One(c, w, r, Go) && Stage(w', alive, b)
    ensures Stands(r', below, f.(phase := Selecting(kept)), status)
  {
    StandsTop(r, below, f, status);
    WithinStands(c, w, r, Go, Selecting(kept), [], below, f, status);
    w', r' := One(c, w, r, Go).0, One(c, w, r, Go).1;
  }

  lemma Select(c: Settings, w: World, r: Request, below: seq<Frame>, f: Frame, status: Option<int>,
               alive: bool, b: B.State, kept: seq<nat>, peer: nat) returns (w': World, r': Request)
    requires Stage(w, alive, b) && Stands(r, below, f, status) && c.breaker.Some?
    requires f.phase == Selecting(kept) && Known(w, kept) && peer in kept && peer <= 1 && (peer == 0 ==> alive)
    ensures (w', r') == One(c, w, r, Pick(Some(peer))) && Stage(w', alive, b)
    ensures Stands(r', below, f.(phase := Asking(peer)), status)
  {
    StandsTop(r, below, f, status);
    WithinStands(c, w, r, Pick(Some(peer)), Asking(peer), [], below, f, status);
    w', r' := One(c, w, r, Pick(Some(peer))).0, One(c, w, r, Pick(Some(peer))).1;
  }

  lemma AskFor(c: Settings, w: World, r: Request, below: seq<Frame>, f: Frame, status: Option<int>,
               alive: bool, b: B.State, peer: nat) returns (w': World, r': Request)
    requires Stage(w, alive, b) && Stands(r, below, f, status) && c.breaker.Some?
    requires f.phase == Asking(peer) && peer <= 1 && (peer == 0 ==> b.phase == B.Closed)
    ensures (w', r') == One(c, w, r, Go) && Stage(w', alive, b)
    ensures Stands(r', below, f.(phase := Admitted(peer)), status)
  {
    StandsTop(r, below, f, status);
    WithinStands(c, w, r, Go, Admitted(peer), [], below, f, status);
    w', r' := One(c, w, r, Go).0, One(c, w, r, Go).1;
  }

  lemma Send(c: Settings, w: World, r: Request, below: seq<Frame>, f: Frame, status: Option<int>,
             alive: bool, b: B.State, peer: nat) returns (w': World, r': Request)
    requires Stage(w, alive, b) && Stands(r, below, f, status) && c.breaker.Some?
    requires f.phase == Admitted(peer) && peer <= 1
    ensures (w', r') == One(c, w, r, Go) && Stage(w', alive, b)
    ensures Stands(r', below, f.(phase := Trying(peer, 0)), status)
  {
    StandsTop(r, below, f, status);
    var events := (if c.sticky then [Cookie(w.servers[peer].url)] else []) + [Reached(peer), Tried(peer)];
    WithinStands(c, w, r, Go, Trying(peer, 0), events, below, f, status);
    w', r' := One(c, w, r, Go).0, One(c, w, r, Go).1;
  }

  /** From the start of a frame to its first try, on the failing backend or past it. */
  lemma Launch(c: Settings, w: World, r: Request, below: seq<Frame>, f: Frame, status: Option<int>,
               alive: bool, b: B.State, peer: nat) returns (w': World, r': Request)
    requires Stage(w, alive, b) && Stands(r, below, f, status) && c.breaker.Some?
    requires f.phase.Entered? && f.attempts < MAX_SWITCHES
    requires peer == 1 || (peer == 0 && alive && b.phase == B.Closed)
    ensures Leads(c, w, r, w', r') && Stage(w', alive, b)
    ensures Stands(r', below, f.(phase := Trying(peer, 0)), status)
  {
    hide One, Stage, Stands, Leads;
    LeadsNowhere(c, w, r);
    w', r' := Enter(c, w, r, below, f, status, alive, b);
    LeadsOn(c, w, r, w, r, Go);
    var w1, r1, kept := FilterFirst(c, w', r', below, f.(phase := Filtering([0, 1], 0, [])), status, alive, b);
    LeadsOn(c, w, r, w', r', Go);
    StageKnows(w1, alive, b);
    w', r' := FilterSecond(c, w1, r1, below, f.(phase := Filtering([0, 1], 1, kept)), status, alive, b, kept);
    LeadsOn(c, w, r, w1, r1, Go);
    StageKnows(w', alive, b);
    w1, r1 := Filtered(c, w', r', below, f.(phase := Filtering([0, 1], 2, kept + [1])), status, alive, b, kept + [1]);
    LeadsOn(c, w, r, w', r', Go);
    StageKnows(w1, alive, b);
    assert (kept + [1])[|kept|] == 1;
    assert peer == 0 ==> (kept + [1])[0] == 0;
    w', r' := Select(c, w1, r1, below, f.(phase := Selecting(kept + [1])), status, alive, b, kept + [1], peer);
    LeadsOn(c, w, r, w1, r1, Pick(Some(peer)));
    w1, r1 := AskFor(c, w', r', below, f.(phase := Asking(peer)), status, alive, b, peer);
    LeadsOn(c, w, r, w', r', Go);
    w', r' := Send(c, w1, r1, below, f.(phase := Admitted(peer)), status, alive, b, peer);
    LeadsOn(c, w, r, w1, r1, Go);
  }

  lemma StageKnows(w: World, alive: bool, b: B.State)
    requires Stage(w, alive, b)
    ensures |w.servers| == 2
  {
  }

  lemma BreakDown(c: Settings, w: World, r: Request, below: seq<Frame>, f: Frame, status: Option<int>,
                  alive: bool, b: B.State) returns (w': World, r': Request)
    requires Stage(w, alive, b) && Stands(r, below, f, status) && f.phase == Trying(0, 0)
    ensures (w', r') == One(c, w, r, Break) && Stage(w', alive, b)
    ensures Stands(r', below, f.(phase := Marking(0)), status)
  {
    StandsTop(r, below, f, status);
    WithinStands(c, w, r, Break, Marking(0), [], below, f, status);
    w', r' := One(c, w, r, Break).0, One(c, w, r, Break).1;
  }

  lemma MarkDead(c: Settings, w: World, r: Request, below: seq<Frame>, f: Frame, status: Option<int>,
                 alive: bool, b: B.State) returns (w': World, r': Request)
    requires Stage(w, alive, b) && Stands(r, below, f, status) && c.breaker.Some? && f.phase == Marking(0)
    ensures (w', r') == One(c, w, r, Go) && Stage(w', false, b)
    ensures Stands(r', below, f.(phase := Blaming(0)), status)
  {
    StandsTop(r, below, f, status);
    WithinStands(c, w, r, Go, Blaming(0), [], below, f, status);
    w', r' := One(c, w, r, Go).0, One(c, w, r, Go).1;
  }

  lemma Blame(c: Settings, w: World, r: Request, below: seq<Frame>, f: Frame, status: Option<int>,
              alive: bool, b: B.State) returns (w': World, r': Request)
    requires Stage(w, alive, b) && Stands(r, below, f, status) && c.breaker.Some? && f.phase == Blaming(0)
    ensures (w', r') == One(c, w, r, Go) && Stage(w', alive, B.RecordFailure(c.breaker.value, b, 0.0))
    ensures Stands(r', below, f.(phase := Switching(0)), status)
  {
    hide B.RecordFailure;
    StandsTop(r, below, f, status);
    WithinStands(c, w, r, Go, Switching(0), [], below, f, status);
    w', r' := One(c, w, r, Go).0, One(c, w, r, Go).1;
  }

  /** The first try fails: the backend is marked dead and blamed. */
  lemma Fail(c: Settings, w: World, r: Request, below: seq<Frame>, f: Frame, status: Option<int>,
             alive: bool, b: B.State) returns (w': World, r': Request)
    requires Stage(w, alive, b) && Stands(r, below, f, status) && c.breaker.Some? && f.phase == Trying(0, 0)
    ensures Leads(c, w, r, w', r') && Stage(w', false, B.RecordFailure(c.breaker.value, b, 0.0))
    ensures Stands(r', below, f.(phase := Switching(0)), status)
  {
    hide One, Stage, Stands, Leads, B.RecordFailure;
    LeadsNowhere(c, w, r);
    var w1, r1 := BreakDown(c, w, r, below, f, status, alive, b);
    LeadsOn(c, w, r, w, r, Break);
    var w2, r2 := MarkDead(c, w1, r1, below, f.(phase := Marking(0)), status, alive, b);
    LeadsOn(c, w, r, w1, r1, Go);
    w', r' := Blame(c, w2, r2, below, f.(phase := Blaming(0)), status, false, b);
    LeadsOn(c, w, r, w2, r2, Go);
  }

  lemma HandOver(c: Settings, w: World, r: Request, f: Frame, status: Option<int>,
                 alive: bool, b: B.State) returns (w': World, r': Request)
    requires Stage(w, alive, b) && Stands(r, [], f, status) && f.phase == Switching(0) && f.attempts == 0
    ensures (w', r') == One(c, w, r, Go) && Stage(w', alive, b)
    ensures Stands(r', [f.(phase := Delegated(0))], NewFrame(1), status)
  {
    StandsTop(r, [], f, status);
    assert Plan(c, w, r, Go) == Some(Call(Delegated(0)));
    w', r' := One(c, w, r, Go).0, One(c, w, r, Go).1;
    assert r'.stack == [f.(phase := Delegated(0))] + [NewFrame(1)];
  }

  lemma Reach(c: Settings, w: World, r: Request, outer: Frame, f: Frame, status: Option<int>,
              alive: bool, b: B.State) returns (w': World, r': Request)
    requires Stage(w, alive, b) && Stands(r, [outer], f, status) && f.phase == Trying(1, 0)
    requires outer.phase.Delegated? && outer.status == OK
    ensures (w', r') == One(c, w, r, Answer(OK)) && Stage(w', alive, b)
    ensures Stands(r', [outer], f.(phase := Recording(1), status := OK), Some(OK))
  {
    StandsTop(r, [outer], f, status);
    assert Plan(c, w, r, Answer(OK)) == Some(Reply(Recording(1), Answered(1, OK), OK));
    w', r' := One(c, w, r, Answer(OK)).0, One(c, w, r, Answer(OK)).1;
    FinalStatusOn(r.log, Answered(1, OK));
    assert WriteThrough([outer], OK) == [outer];
  }

  lemma WriteRecord(c: Settings, w: World, r: Request, below: seq<Frame>, f: Frame, status: Option<int>,
                    b: B.State, peer: nat) returns (w': World, r': Request)
    requires Stage(w, false, b) && Stands(r, below, f, status) && c.breaker.Some?
    requires f.phase == Recording(peer) && peer <= 1 && f.status == OK && b.phase == B.Open
    ensures (w', r') == One(c, w, r, Go) && Stage(w', false, b)
    ensures Stands(r', below, f.(phase := Closing(peer)), status)
  {
    StandsTop(r, below, f, status);
    WithinStands(c, w, r, Go, Closing(peer), [Recorded(peer, OK)], below, f, status);
    w', r' := One(c, w, r, Go).0, One(c, w, r, Go).1;
  }

  lemma Close(c: Settings, w: World, r: Request, below: seq<Frame>, f: Frame, status: Option<int>,
              alive: bool, b: B.State, peer: nat) returns (w': World, r': Request)
    requires Stage(w, alive, b) && Stands(r, below, f, status) && f.phase == Closing(peer) && peer <= 1
    ensures (w', r') == One(c, w, r, Go) && Stage(w', alive, b)
    ensures Stands(r', below, f.(phase := Done), status)
  {
    StandsTop(r, below, f, status);
    WithinStands(c, w, r, Go, Done, [], below, f, status);
    w', r' := One(c, w, r, Go).0, One(c, w, r, Go).1;
  }

  lemma ReturnTo(c: Settings, w: World, r: Request, outer: Frame, f: Frame, status: Option<int>,
                 alive: bool, b: B.State) returns (w': World, r': Request)
    requires Stage(w, alive, b) && Stands(r, [outer], f, status) && f.phase.Done? && outer.phase == Delegated(0)
    ensures (w', r') == One(c, w, r, Go) && Stage(w', alive, b)
    ensures Stands(r', [], outer.(phase := Recording(0)), status)
  {
    StandsTop(r, [outer], f, status);
    assert Plan(c, w, r, Go) == Some(Return);
    w', r' := One(c, w, r, Go).0, One(c, w, r, Go).1;
    assert r'.stack == [outer.(phase := Recording(0))];
  }

  lemma ReturnLast(c: Settings, w: World, r: Request, f: Frame, status: Option<int>,
                   alive: bool, b: B.State) returns (w': World, r': Request)
    requires Stage(w, alive, b) && Stands(r, [], f, status) && f.phase.Done?
    ensures (w', r') == One(c, w, r, Go) && Stage(w', alive, b)
    ensures Plain(r') && r'.stack == [] && FinalStatus(r'.log) == status
  {
    StandsTop(r, [], f, status);
    assert Plan(c, w, r, Go) == Some(Return);
    w', r' := One(c, w, r, Go).0, One(c, w, r, Go).1;
  }

  /** Recording, closing and coming to an end of one frame. */
  lemma WindUp(c: Settings, w: World, r: Request, below: seq<Frame>, f: Frame, status: Option<int>,
               b: B.State, peer: nat) returns (w': World, r': Request)
    requires Stage(w, false, b) && Stands(r, below, f, status) && c.breaker.Some?
    requires f.phase == Recording(peer) && peer <= 1 && f.status == OK && b.phase == B.Open
    ensures Leads(c, w, r, w', r') && Stage(w', false, b) && Stands(r', below, f.(phase := Done), status)
  {
    hide One, Stage, Stands, Leads;
    LeadsNowhere(c, w, r);
    var w1, r1 := WriteRecord(c, w, r, below, f, status, b, peer);
    LeadsOn(c, w, r, w, r, Go);
    w', r' := Close(c, w1, r1, below, f.(phase := Closing(peer)), status, false, b, peer);
    LeadsOn(c, w, r, w1, r1, Go);
  }

  lemma LeadsFurther(c: Settings, w: World, r: Request, w1: World, r1: Request, w2: World, r2: Request)
    requires Leads(c, w, r, w1, r1) && Leads(c, w1, r1, w2, r2)
    ensures Leads(c, w, r, w2, r2)
  {
    var first :| Solo(c, w, r, first) == (w1, r1);
    var second :| Solo(c, w1, r1, second) == (w2, r2);
    SoloBoth(c, w, r, first, second);
    assert Solo(c, w, r, first + second) == (w2, r2);
  }

  lemma {:induction false} SoloBoth(c: Settings, w: World, r: Request, first: seq<Choice>, second: seq<Choice>)
    ensures Solo(c, w, r, first + second) ==
      Solo(c, Solo(c, w, r, first).0, Solo(c, w, r, first).1, second)
  {
    hide One;
    if second == [] {
      assert first + second == first;
    } else {
      var n := |second| - 1;
      assert (first + second)[..|first + second| - 1] == first + second[..n];
      SoloBoth(c, w, r, first, second[..n]);
    }
  }

  /** After the blame the other backend answers, and both dispatches are recorded with its 200. */
  lemma Finish(c: Settings, w: World, r: Request, b: B.State) returns (w': World, r': Request)
    requires Stage(w, false, b) && c.breaker.Some? && b.phase == B.Open
    requires Stands(r, [], Frame(0, Switching(0), OK), None)
    ensures Leads(c, w, r, w', r') && Stage(w', false, b)
    ensures Plain(r') && r'.stack == [] && FinalStatus(r'.log) == Some(OK)
  {
    hide One, Stage, Stands, Leads;
    var outer, inner := Frame(0, Delegated(0), OK), NewFrame(1);
    LeadsNowhere(c, w, r);
    var w1, r1 := HandOver(c, w, r, Frame(0, Switching(0), OK), None, false, b);
    LeadsOn(c, w, r, w, r, Go);
    var w2, r2 := Launch(c, w1, r1, [outer], inner, None, false, b, 1);
    LeadsFurther(c, w, r, w1, r1, w2, r2);
    var w3, r3 := Reach(c, w2, r2, outer, inner.(phase := Trying(1, 0)), None, false, b);
    LeadsOn(c, w, r, w2, r2, Answer(OK));
    var w4, r4 := WindUp(c, w3, r3, [outer], inner.(phase := Recording(1)), Some(OK), b, 1);
    LeadsFurther(c, w, r, w3, r3, w4, r4);
    var w5, r5 := ReturnTo(c, w4, r4, outer, inner.(phase := Done), Some(OK), false, b);
    LeadsOn(c, w, r, w4, r4, Go);
    var w6, r6 := WindUp(c, w5, r5, [], outer.(phase := Recording(0)), Some(OK), b, 0);
    LeadsFurther(c, w, r, w5, r5, w6, r6);
    w', r' := ReturnLast(c, w6, r6, outer.(phase := Done), Some(OK), false, b);
    LeadsOn(c, w, r, w6, r6, Go);
  }

  // ----- waves of requests

  ghost predicate AllQuiet(actions: seq<Action>) {
    forall k :: 0 <= k < |actions| ==> Quiet(actions[k])
  }

  /** A run of a request on its own is a run of the system. */
  lemma Advance(c: Settings, actions: seq<Action>, i: nat, w': World, r': Request) returns (longer: seq<Action>)
    requires AllQuiet(actions) && i < |After(c, Start(), actions).requests|
    requires var t := After(c, Start(), actions); Leads(c, t.world, t.requests[i], w', r')
    ensures AllQuiet(longer)
    ensures After(c, Start(), longer) == System(w', After(c, Start(), actions).requests[i := r'])
  {
    hide After, Solo, Runs, Quiet;
    var t := After(c, Start(), actions);
    var chs :| Solo(c, t.world, t.requests[i], chs) == (w', r');
    SoloRuns(c, t, i, chs);
    AfterBoth(c, Start(), actions, Runs(i, chs));
    longer := actions + Runs(i, chs);
  }

  ghost predicate InFlight(r: Request, p: Phase) {
    Stands(r, [], Frame(0, p, OK), None)
  }

  ghost predicate Over(r: Request) {
    Plain(r) && r.stack == [] && FinalStatus(r.log) == Some(OK)
  }

  ghost predicate AllInFlight(requests: seq<Request>, lo: nat, hi: nat, p: Phase) {
    hi <= |requests| && forall i :: lo <= i < hi ==> InFlight(requests[i], p)
  }

  /** First `k` requests come as far as their first try. */
  lemma {:induction false} FirstWave(c: Settings, k: nat) returns (actions: seq<Action>)
    requires c.breaker.Some?
    ensures AllQuiet(actions)
    ensures var t := After(c, Start(), actions);
      |t.requests| == k && Stage(t.world, true, B.Fresh()) && AllInFlight(t.requests, 0, k, Trying(0, 0))
  {
    hide Stage, Next, InFlight;
    if k == 0 {
      actions := [];
      StageAtStart();
    } else {
      var before := FirstWave(c, k - 1);
      var t := After(c, Start(), before);
      var r := Request("POST", "", [NewFrame(0)], []);
      var here := before + [Arrive("POST", "")];
      assert here[..|before|] == before;
      Arrives(c, t, "POST", "");
      var w', r' := FlyOut(c, t.world, r);
      actions := Advance(c, here, k - 1, w', r');
      assert After(c, Start(), actions).requests == t.requests + [r'];
    }
  }

  lemma StageAtStart()
    ensures Stage(Start().world, true, B.Fresh())
  {
  }

  lemma Arrives(c: Settings, s: System, name: string, cookie: string)
    ensures Next(c, s, Arrive(name, cookie)) ==
      System(s.world, s.requests + [Request(name, cookie, [NewFrame(0)], [])])
  {
  }

  lemma FlyOut(c: Settings, w: World, r: Request) returns (w': World, r': Request)
    requires Stage(w, true, B.Fresh()) && c.breaker.Some? && r == Request("POST", "", [NewFrame(0)], [])
    ensures Leads(c, w, r, w', r') && Stage(w', true, B.Fresh()) && InFlight(r', Trying(0, 0))
  {
    hide Stage, Leads;
    assert r.stack == [] + [NewFrame(0)];
    w', r' := Launch(c, w, r, [], NewFrame(0), None, true, B.Fresh(), 0);
  }

  /** The failing backend's breaker after `k` failures in a row. */
  function FailedTimes(c: Settings, k: nat): B.State
    requires c.breaker.Some?
  {
    if k < c.breaker.value.failureThreshold then B.State(B.Closed, k, 0, 0.0, false)
    else B.State(B.Open, 0, 0, 0.0, false)
  }

  /** Then the first `k` of them fail, as many as the threshold in all. */
  lemma {:induction false} SecondWave(c: Settings, k: nat) returns (actions: seq<Action>)
    requires c.breaker.Some? && T.Proper(c.breaker.value) && k <= c.breaker.value.failureThreshold
    ensures AllQuiet(actions)
    ensures var t, n := After(c, Start(), actions), c.breaker.value.failureThreshold;
      && |t.requests| == n && Stage(t.world, k == 0, FailedTimes(c, k))
      && AllInFlight(t.requests, 0, k, Switching(0)) && AllInFlight(t.requests, k, n, Trying(0, 0))
  {
    hide Stage, After, InFlight, Leads;
    if k == 0 {
      actions := FirstWave(c, c.breaker.value.failureThreshold);
    } else {
      var before := SecondWave(c, k - 1);
      var t := After(c, Start(), before);
      var w', r' := FailOne(c, t.world, t.requests[k - 1], k - 1);
      actions := Advance(c, before, k - 1, w', r');
    }
  }

  lemma FailOne(c: Settings, w: World, r: Request, k: nat) returns (w': World, r': Request)
    requires c.breaker.Some? && T.Proper(c.breaker.value) && k < c.breaker.value.failureThreshold
    requires Stage(w, k == 0, FailedTimes(c, k)) && InFlight(r, Trying(0, 0))
    ensures Leads(c, w, r, w', r') && Stage(w', false, FailedTimes(c, k + 1)) && InFlight(r', Switching(0))
  {
    hide Stage, Leads;
    w', r' := Fail(c, w, r, [], Frame(0, Trying(0, 0), OK), None, k == 0, FailedTimes(c, k));
  }

  /** Last, the other backend answers the first `k` of them. */
  lemma {:induction false} ThirdWave(c: Settings, k: nat) returns (actions: seq<Action>)
    requires c.breaker.Some? && T.Proper(c.breaker.value) && k <= c.breaker.value.failureThreshold
    ensures AllQuiet(actions)
    ensures var t, n := After(c, Start(), actions), c.breaker.value.failureThreshold;
      && |t.requests| == n && Stage(t.world, false, FailedTimes(c, n))
      && (forall i :: 0 <= i < k ==> Over(t.requests[i])) && AllInFlight(t.requests, k, n, Switching(0))
  {
    hide Stage, After, InFlight, Over, Leads;
    var n := c.breaker.value.failureThreshold;
    if k == 0 {
      actions := SecondWave(c, n);
    } else {
      var before := ThirdWave(c, k - 1);
      var t := After(c, Start(), before);
      var w', r' := FinishOne(c, t.world, t.requests[k - 1]);
      actions := Advance(c, before, k - 1, w', r');
    }
  }

  lemma FinishOne(c: Settings, w: World, r: Request) returns (w': World, r': Request)
    requires c.breaker.Some? && T.Proper(c.breaker.value) && InFlight(r, Switching(0))
    requires Stage(w, false, FailedTimes(c, c.breaker.value.failureThreshold))
    ensures Leads(c, w, r, w', r') && Over(r')
    ensures Stage(w', false, FailedTimes(c, c.breaker.value.failureThreshold))
  {
    hide Stage, Leads;
    w', r' := Finish(c, w, r, FailedTimes(c, c.breaker.value.failureThreshold));
  }

  // ----- how many dispatches overlap in a quiet run

  /** Waiting frames owe their verdict exactly when they owe their record. */
  lemma {:induction false} WaitingOwesBoth(outer: seq<Frame>, id: nat)
    requires forall i :: 0 <= i < |outer| ==> Waits(outer[i].phase)
    ensures Owed(Verdict, outer, id) == Owed(Record, outer, id)
  {
    if outer != [] { WaitingOwesBoth(outer[..|outer| - 1], id); }
  }

  /** In a quiet run a request has at most one open verdict on a backend, since it is sent there at most once. */
  lemma OneVerdict(w: World, r: Request, id: nat)
    requires Nested(r.stack) && Matched(r) && Spent(w, r)
    ensures Owed(Verdict, r.stack, id) <= 1
  {
    hide Owed, Count, Pooled;
    assert SpentOn(w, r, id);
    if r.stack == [] {
      EmptyOwes(id);
    } else {
      NestedMeans(r);
      WaitingOwesBoth(Below(r), id);
      assert r.stack == Below(r) + [Top(r)];
      OwedOn(Verdict, Below(r), Top(r), id);
      OwedOn(Record, Below(r), Top(r), id);
    }
  }

  lemma EmptyOwes(id: nat)
    ensures Owed(Verdict, [], id) == 0
  {
  }

  lemma {:induction false} OneVerdictEach(requests: seq<Request>, id: nat)
    requires forall i :: 0 <= i < |requests| ==> Owed(Verdict, requests[i].stack, id) <= 1
    ensures OfAll(Owing(Verdict), requests, id) <= |requests|
  {
    hide Owed;
    if requests != [] { OneVerdictEach(requests[..|requests| - 1], id); }
  }

  lemma {:induction false} StageSetStays(c: Settings, actions: seq<Action>)
    requires AllQuiet(actions)
    ensures var w := After(c, Start(), actions).world;
      |w.servers| == 2 && w.servers[0].url == FAILING && w.servers[1].url == ANSWERING
  {
    hide Next, Quiet;
    if actions != [] {
      var front := actions[..|actions| - 1];
      StageSetStays(c, front);
      AlwaysSound(c, Start(), front);
      QuietFades(c, After(c, Start(), front), actions[|actions| - 1]);
    }
  }

  /** So on the failing backend no more dispatches are open at once than requests have come. */
  lemma QuietOverlap(c: Settings, actions: seq<Action>)
    requires AllQuiet(actions)
    ensures UrlTotal(Owing(Verdict), After(c, Start(), actions), FAILING) <= |After(c, Start(), actions).requests|
  {
    hide After, Quiet, OfAll, Spent, Orderly, Sound;
    var t := After(c, Start(), actions);
    StartIsSound();
    StageSetStays(c, actions);
    AlwaysSound(c, Start(), actions);
    forall i | 0 <= i < |t.requests| ensures Owed(Verdict, t.requests[i].stack, 0) <= 1 {
      AlwaysSpent(c, Start(), actions, i);
      MatchedAlways(c, Start(), actions, i);
      SoundMeans(t, i);
      OneVerdict(t.world, t.requests[i], 0);
    }
    OneVerdictEach(t.requests, 0);
    OneMore(Owing(Verdict), t.world, t.requests, FAILING, 2);
    OneMore(Owing(Verdict), t.world, t.requests, FAILING, 1);
  }

  lemma StartIsSound()
    ensures Initial(Start()) && Sound(Start()) && DistinctUrls(Start().world)
  {
  }

  lemma {:induction false} RequestsOnlyCome(c: Settings, s: System, actions: seq<Action>, k: nat)
    requires k <= |actions|
    ensures |After(c, s, actions[..k]).requests| <= |After(c, s, actions).requests|
  {
    hide Next;
    if k == |actions| {
      assert actions[..k] == actions;
    } else {
      var front := actions[..|actions| - 1];
      RequestsOnlyCome(c, s, front, k);
      assert front[..k] == actions[..k];
      RequestsStay(c, After(c, s, front), actions[|actions| - 1]);
    }
  }

  /**
    With breakers on, whatever the threshold: as many overlapping dispatches to one backend open its circuit,
    although its every record is a success and every request ends with a 200 from the other backend.
   */
  lemma OverlapTripsDispatch(c: Settings) returns (actions: seq<Action>)
    requires c.breaker.Some? && T.Proper(c.breaker.value)
    ensures Initial(Start()) && AtMostAtOnce(c, Start(), actions, FAILING, c.breaker.value.failureThreshold)
    ensures var t := After(c, Start(), actions);
      && BreakerOf(t.world, FAILING).phase == B.Open && RecordsAre(t, FAILING, false)
      && |t.requests| == c.breaker.value.failureThreshold
      && forall i :: 0 <= i < |t.requests| ==> t.requests[i].stack == [] && FinalStatus(t.requests[i].log) == Some(OK)
  {
    hide After, Quiet, UrlTotal;
    var n := c.breaker.value.failureThreshold;
    StartIsSound();
    actions := ThirdWave(c, n);
    var t := After(c, Start(), actions);
    forall k | 0 <= k <= |actions|
      ensures UrlTotal(Owing(Verdict), After(c, Start(), actions[..k]), FAILING) <= n
    {
      assert AllQuiet(actions[..k]);
      QuietOverlap(c, actions[..k]);
      RequestsOnlyCome(c, Start(), actions, k);
    }
    forall i | 0 <= i < |t.requests| ensures LogRecordsAre(t.world, t.requests[i].log, FAILING, false) {
      EveryDispatchRecordsTheFinalStatus(c, Start(), actions, i, 0);
    }
  }

  // ----- a revived backend

  lemma Continue(c: Settings, s: System, i: nat, w': World, r': Request) returns (actions: seq<Action>)
    requires i < |s.requests| && Leads(c, s.world, s.requests[i], w', r')
    ensures AllQuiet(actions) && After(c, s, actions) == System(w', s.requests[i := r'])
  {
    hide After, Solo, Runs, Quiet;
    var chs :| Solo(c, s.world, s.requests[i], chs) == (w', r');
    SoloRuns(c, s, i, chs);
    actions := Runs(i, chs);
  }

  /** One request has failed on the failing backend and is about to choose again. */
  lemma FailedOnce(c: Settings) returns (actions: seq<Action>)
    requires c.breaker.Some? && T.Proper(c.breaker.value)
    ensures AllQuiet(actions)
    ensures var t := After(c, Start(), actions);
      && |t.requests| == 1 && Stage(t.world, false, FailedTimes(c, 1))
      && Stands(t.requests[0], [Frame(0, Delegated(0), OK)], NewFrame(1), None)
  {
    hide After, Stage, Leads, Solo, Quiet, One;
    var first := FirstWave(c, 1);
    var t1 := After(c, Start(), first);
    var w2, r2 := FailOne(c, t1.world, t1.requests[0], 0);
    var second := Advance(c, first, 0, w2, r2);
    var w3, r3 := HandOver(c, w2, r2, Frame(0, Switching(0), OK), None, false, FailedTimes(c, 1));
    LeadsNowhere(c, w2, r2);
    LeadsOn(c, w2, r2, w2, r2, Go);
    actions := Advance(c, second, 0, w3, r3);
  }

  lemma Revived(c: Settings, s: System, b: B.State)
    requires Stage(s.world, false, b)
    ensures Stage(Next(c, s, Judge(0, true)).world, true, b) && Next(c, s, Judge(0, true)).requests == s.requests
  {
  }

  lemma TwoOpen(r: Request)
    requires Stands(r, [Frame(0, Delegated(0), OK)], Frame(1, Trying(0, 0), OK), None) && Matched(r)
    ensures Count(ReachingOf(0), r.log) >= 2
  {
    hide Owed, Count;
    OwedOn(Record, [], Frame(0, Delegated(0), OK), 0);
    assert [] + [Frame(0, Delegated(0), OK)] == [Frame(0, Delegated(0), OK)];
    OwedOn(Record, [Frame(0, Delegated(0), OK)], Frame(1, Trying(0, 0), OK), 0);
  }

  /**
    That nobody revives a backend is needed for failover never to go back: a request fails on a backend, one
    probe revives it, and the request is sent there again, its breaker being still closed.
   */
  lemma RevivedIsRevisited(c: Settings) returns (before: seq<Action>, after: seq<Action>)
    requires c.breaker.Some? && T.Proper(c.breaker.value) && c.breaker.value.failureThreshold >= 2
    ensures AllQuiet(before) && AllQuiet(after)
    ensures var t := After(c, Start(), before + [Judge(0, true)] + after);
      |t.requests| == 1 && Count(ReachingOf(0), t.requests[0].log) >= 2
  {
    hide After, Next, Stage, Stands, Leads, Quiet, Count, Matched;
    before := FailedOnce(c);
    var t, b := After(c, Start(), before), FailedTimes(c, 1);
    var s := Next(c, t, Judge(0, true));
    Revived(c, t, b);
    AfterBoth(c, Start(), before, [Judge(0, true)]);
    AfterOne(c, t, Judge(0, true));
    var w', r' := Launch(c, s.world, s.requests[0], [Frame(0, Delegated(0), OK)], NewFrame(1), None, true, b, 0);
    after := Continue(c, s, 0, w', r');
    AfterBoth(c, Start(), before + [Judge(0, true)], after);
    StartIsSound();
    MatchedAlways(c, Start(), before + [Judge(0, true)] + after, 0);
    TwoOpen(r');
  }

  lemma AfterOne(c: Settings, s: System, a: Action)
    ensures After(c, s, [a]) == Next(c, s, a)
  {
    hide Next;
    assert [a][..0] == [];
  }

  // ----- the exact condition

  /** A run in which at most `n` dispatches to a URL overlap and each is recorded with a success. */
  ghost predicate FailuresHidden(c: Settings, s: System, actions: seq<Action>, url: string, n: nat) {
    Initial(s) && AtMostAtOnce(c, s, actions, url, n) && RecordsAre(After(c, s, actions), url, false)
  }

  /** No such run opens the circuit. */
  ghost predicate NeverTrips(c: Settings, n: nat) {
    forall s, actions, url :: FailuresHidden(c, s, actions, url, n) ==>
      BreakerOf(After(c, s, actions).world, url).phase == B.Closed
  }

  /**
    However requests interleave, failover hides a backend's failures from its breaker exactly while fewer of its
    dispatches overlap than the threshold.
   */
  lemma FailoverMasksExactly(c: Settings, n: nat)
    requires c.breaker.Some? && T.Proper(c.breaker.value)
    ensures NeverTrips(c, n) <==> c.breaker.value.failureThreshold > n
  {
    hide After, BreakerOf, UrlTotal, RecordsAre, Initial;
    if c.breaker.value.failureThreshold > n {
      forall s, actions, url | FailuresHidden(c, s, actions, url, n)
        ensures BreakerOf(After(c, s, actions).world, url).phase == B.Closed
      {
        FewOverlapsStayMasked(c, s, actions, url, n);
      }
    } else {
      var actions := OverlapTripsDispatch(c);
      assert FailuresHidden(c, Start(), actions, FAILING, n);
    }
  }
}
