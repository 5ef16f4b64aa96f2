/** What holds of every single request, however its steps interleave with everything else. */
module DispatchRequests {
  import opened Common
  import opened Proxy
  import opened DispatchAccounts
  import B = CircuitBreaker

  datatype Kind = Outcome | Reaching | ReachingOf(id: nat) | TryOf(id: nat) | EndOn(id: nat) | RecordOf(id: nat)

  predicate Settles(e: Event) {
    e.Answered? || e.Refused? || e.Abandoned?
  }

  predicate Is(k: Kind, e: Event) {
    match k
    case Outcome => Settles(e)
    case Reaching => e.Reached?
    case ReachingOf(id) => e == Reached(id)
    case TryOf(id) => e == Tried(id)
    case EndOn(id) => (e.Answered? || e.Abandoned?) && e.peer == id
    case RecordOf(id) => e.Recorded? && e.peer == id
  }

  function Count(k: Kind, log: seq<Event>): nat {
    if log == [] then 0 else Count(k, log[..|log| - 1]) + if Is(k, log[|log| - 1]) then 1 else 0
  }

  lemma CountOn(k: Kind, log: seq<Event>, e: Event)
    ensures Count(k, log + [e]) == Count(k, log) + if Is(k, e) then 1 else 0
  {
    assert (log + [e])[..|log|] == log;
  }

  /** What a log gains in a step, kind by kind. */
  function Gain(k: Kind, c: Settings, r: Request, ch: Choice, e: Effect): nat
    requires r.stack != []
  {
    match Top(r).phase
    case Admitted(peer) =>
      (if k == Reaching || k == ReachingOf(peer) then 1 else 0) + (if k == TryOf(peer) then 1 else 0)
    case Trying(peer, _) => if ch.Answer? && (k == Outcome || k == EndOn(peer)) then 1 else 0
    case BackingOff(peer, _) =>
      if ch == Timer then (if k == TryOf(peer) then 1 else 0)
      else if k == Outcome || k == EndOn(peer) then 1 else 0
    case Recording(peer) => if k == RecordOf(peer) then 1 else 0
    case _ => if e.Reply? && k == Outcome then 1 else 0
  }

  lemma CountMove(k: Kind, c: Settings, w: World, r: Request, ch: Choice)
    requires r.stack != [] && KnownPhase(w, Top(r).phase) && Plan(c, w, r, ch).Some?
    ensures var e := Plan(c, w, r, ch).value;
      Count(k, Perform(r, e).log) == Count(k, r.log) + Gain(k, c, r, ch, e)
  {
    hide Plan, Count, Perform;
    PlanOutline(c, w, r, ch);
    PerformLog(r, Plan(c, w, r, ch).value);
    CountEvents(k, r.log, Plan(c, w, r, ch).value);
    if Top(r).phase.Admitted? { CountAdmission(k, c, r.log, w.servers[Top(r).phase.peer].url, Top(r).phase.peer); }
  }

  lemma PerformLog(r: Request, e: Effect)
    requires r.stack != []
    ensures Perform(r, e).log ==
      if e.Become? then r.log + e.events else if e.Reply? then r.log + [e.event] else r.log
  {
  }

  lemma CountEvents(k: Kind, log: seq<Event>, e: Effect)
    ensures e.Become? && e.events == [] ==> Count(k, log + e.events) == Count(k, log)
    ensures e.Become? && |e.events| == 1 ==>
      Count(k, log + e.events) == Count(k, log) + (if Is(k, e.events[0]) then 1 else 0)
    ensures e.Reply? ==> Count(k, log + [e.event]) == Count(k, log) + if Is(k, e.event) then 1 else 0
  {
    if e.Become? && e.events == [] { assert log + e.events == log; }
    if e.Become? && |e.events| == 1 {
      assert e.events == [e.events[0]];
      CountOn(k, log, e.events[0]);
    }
    if e.Reply? { CountOn(k, log, e.event); }
  }

  lemma CountAdmission(k: Kind, c: Settings, log: seq<Event>, url: string, peer: nat)
    ensures Count(k, log + ((if c.sticky then [Cookie(url)] else []) + [Reached(peer), Tried(peer)])) == Count(k, log)
      + (if k == Reaching || k == ReachingOf(peer) then 1 else 0) + (if k == TryOf(peer) then 1 else 0)
  {
    hide Count;
    var start := if c.sticky then log + [Cookie(url)] else log;
    CountOn(k, log, Cookie(url));
    CountOn(k, start, Reached(peer));
    CountOn(k, start + [Reached(peer)], Tried(peer));
    assert log + ((if c.sticky then [Cookie(url)] else []) + [Reached(peer), Tried(peer)])
      == start + [Reached(peer)] + [Tried(peer)];
  }

  // ----- one outcome

  /** The request has its outcome and only returns from its calls. */
  predicate Unwinding(r: Request) {
    r.stack == [] || Top(r).phase.Recording? || Top(r).phase.Closing? || Top(r).phase.Done?
  }

  predicate Settled(r: Request) {
    Count(Outcome, r.log) == if Unwinding(r) then 1 else 0
  }

  /** Whether a request goes from deciding to unwinding, and that it never goes back. */
  lemma UnwindingMove(c: Settings, w: World, r: Request, ch: Choice)
    requires r.stack != [] && Nested(r.stack) && KnownPhase(w, Top(r).phase) && Plan(c, w, r, ch).Some?
    ensures var e := Plan(c, w, r, ch).value;
      Unwinding(Perform(r, e)) <==> Unwinding(r) || e.Reply? || (Top(r).phase.BackingOff? && ch == ClientGone)
  {
    hide Plan, KnownPhase, Nested, Perform;
    PlanOutline(c, w, r, ch);
    PerformTop(r, Plan(c, w, r, ch).value);
  }

  lemma SettledMove(c: Settings, w: World, r: Request, ch: Choice)
    requires r.stack != [] && Nested(r.stack) && KnownPhase(w, Top(r).phase) && Plan(c, w, r, ch).Some?
    requires Settled(r)
    ensures Settled(Perform(r, Plan(c, w, r, ch).value))
  {
    hide Plan, KnownPhase, Count, Nested, Perform;
    PlanOutline(c, w, r, ch);
    CountMove(Outcome, c, w, r, ch);
    UnwindingMove(c, w, r, ch);
  }

  // ----- every dispatch records, and with the final status

  /** The status the client saw; a handler that gives up without writing lets the server send 200. */
  function FinalStatus(log: seq<Event>): Option<int> {
    if log == [] then None
    else
      var e := log[|log| - 1];
      if e.Answered? then Some(e.code)
      else if e.Refused? then Some(UNAVAILABLE)
      else if e.Abandoned? then Some(OK)
      else FinalStatus(log[..|log| - 1])
  }

  lemma FinalStatusOn(log: seq<Event>, e: Event)
    ensures FinalStatus(log + [e]) ==
      if e.Answered? then Some(e.code) else if e.Refused? then Some(UNAVAILABLE)
      else if e.Abandoned? then Some(OK) else FinalStatus(log)
  {
    assert (log + [e])[..|log|] == log;
  }

  /** Every frame that is still to record has captured this status. */
  ghost predicate Carries(stack: seq<Frame>, status: int) {
    forall i :: 0 <= i < |stack| && (stack[i].phase.Delegated? || stack[i].phase.Recording?) ==>
      stack[i].status == status
  }

  ghost predicate Untouched(stack: seq<Frame>) {
    forall i :: 0 <= i < |stack| ==> stack[i].status == OK
  }

  ghost predicate RecordsSay(log: seq<Event>, status: int) {
    forall k :: 0 <= k < |log| && log[k].Recorded? ==> log[k].status == status
  }

  ghost predicate NoRecords(log: seq<Event>) {
    forall k :: 0 <= k < |log| ==> !log[k].Recorded?
  }

  ghost predicate Uniform(r: Request) {
    if Unwinding(r) then
      && FinalStatus(r.log).Some?
      && Carries(r.stack, FinalStatus(r.log).value) && RecordsSay(r.log, FinalStatus(r.log).value)
    else Untouched(r.stack) && NoRecords(r.log)
  }

  lemma UniformReply(r: Request, phase: Phase, event: Event, code: int)
    requires r.stack != [] && Nested(r.stack) && !Unwinding(r) && Uniform(r)
    requires phase.Recording? ==> Wraps(Top(r).phase)
    requires phase.Done? || phase.Recording?
    requires (event.Answered? && event.code == code) || (event.Refused? && code == UNAVAILABLE)
    ensures Uniform(Perform(r, Reply(phase, event, code)))
  {
    hide WriteThrough;
    NestedMeans(r);
    FinalStatusOn(r.log, event);
  }

  lemma UniformGiveUp(r: Request, phase: Phase)
    requires r.stack != [] && !Unwinding(r) && Uniform(r) && phase.Recording?
    ensures Uniform(Perform(r, Become(phase, [Abandoned(phase.peer)])))
  {
    FinalStatusOn(r.log, Abandoned(phase.peer));
  }

  lemma UniformRecord(r: Request, peer: nat)
    requires r.stack != [] && Nested(r.stack) && Uniform(r) && Top(r).phase == Recording(peer)
    ensures Uniform(Perform(r, Become(Closing(peer), [Recorded(peer, Top(r).status)])))
  {
    FinalStatusOn(r.log, Recorded(peer, Top(r).status));
  }

  lemma UniformQuiet(r: Request, phase: Phase, events: seq<Event>)
    requires r.stack != [] && Nested(r.stack) && Uniform(r) && NoRecords(events)
    requires if Unwinding(r) then phase.Done? && events == [] else !phase.Recording? && !phase.Closing? && !phase.Done?
    ensures Uniform(Perform(r, Become(phase, events)))
  {
    if events == [] { assert r.log + events == r.log; }
  }

  lemma UniformCall(r: Request, phase: Phase)
    requires r.stack != [] && !Unwinding(r) && Uniform(r)
    ensures Uniform(Perform(r, Call(phase)))
  {
  }

  lemma UniformReturn(r: Request)
    requires r.stack != [] && Nested(r.stack) && Uniform(r) && Top(r).phase.Done?
    ensures Uniform(Perform(r, Return))
  {
    hide Nested, FinalStatus, RecordsSay, Outer;
    NestedMeans(r);
    PerformTop(r, Return);
    CarriesBelow(Below(r), Top(r), FinalStatus(r.log).value);
  }

  lemma CarriesBelow(below: seq<Frame>, top: Frame, status: int)
    requires Carries(below + [top], status)
    ensures Carries(if below == [] then [] else below[..|below| - 1] + [Resumed(below[|below| - 1])], status)
  {
    assert forall i :: 0 <= i < |below| ==> (below + [top])[i] == below[i];
  }

  lemma UniformMove(c: Settings, w: World, r: Request, ch: Choice)
    requires r.stack != [] && Nested(r.stack) && KnownPhase(w, Top(r).phase) && Plan(c, w, r, ch).Some?
    requires Uniform(r)
    ensures Uniform(Perform(r, Plan(c, w, r, ch).value))
  {
    hide Plan, Nested, Perform, Uniform;
    PlanOutline(c, w, r, ch);
    NestedMeans(r);
    match Plan(c, w, r, ch).value {
      case Become(phase, events) =>
        match Top(r).phase {
          case Recording(peer) => UniformRecord(r, peer);
          case BackingOff(_, _) =>
            if ch == ClientGone { UniformGiveUp(r, phase); } else { UniformQuiet(r, phase, events); }
          case _ => UniformQuiet(r, phase, events);
        }
      case Call(phase) => UniformCall(r, phase);
      case Reply(phase, event, code) => UniformReply(r, phase, event, code);
      case Return => UniformReturn(r);
    }
  }

  /** Each dispatch to a backend has been recorded, or an open frame still owes the record. */
  ghost predicate Matched(r: Request) {
    forall id: nat :: Count(ReachingOf(id), r.log) == Count(RecordOf(id), r.log) + Owed(Record, r.stack, id)
  }

  lemma MatchedMove(c: Settings, w: World, r: Request, ch: Choice)
    requires r.stack != [] && Nested(r.stack) && KnownPhase(w, Top(r).phase) && Plan(c, w, r, ch).Some?
    requires Matched(r)
    ensures Matched(Perform(r, Plan(c, w, r, ch).value))
  {
    hide Plan, KnownPhase, Nested, Perform, Count, Owed;
    PlanOutline(c, w, r, ch);
    var r' := Perform(r, Plan(c, w, r, ch).value);
    forall id: nat
      ensures Count(ReachingOf(id), r'.log) == Count(RecordOf(id), r'.log) + Owed(Record, r'.stack, id)
    {
      CountMove(ReachingOf(id), c, w, r, ch);
      CountMove(RecordOf(id), c, w, r, ch);
      OwedMove(c, w, r, ch, Record, id);
    }
  }

  // ----- how many backends, how many tries

  /** The retry counter of a frame stays within its limits. */
  predicate RetryFits(r: Request, p: Phase) {
    && (p.Trying? ==> p.retry <= MAX_RETRIES && (r.Idempotent() || p.retry == 0))
    && (p.BackingOff? ==> p.retry < MAX_RETRIES && r.Idempotent())
  }

  /** The tries a frame has left on a backend. */
  function TriesLeft(r: Request, p: Phase, id: nat): int {
    if (p.Trying? || p.BackingOff?) && p.peer == id && r.Idempotent() then MAX_RETRIES - p.retry else 0
  }

  /** Four tries a dispatch when the method may be repeated, one otherwise. */
  function Budget(r: Request, dispatches: nat): nat {
    if r.Idempotent() then (MAX_RETRIES + 1) * dispatches else dispatches
  }

  predicate Dispatched(p: Phase) {
    p.Trying? || p.BackingOff? || p.Marking? || p.Blaming? || p.Switching?
  }

  ghost predicate Bounded(r: Request) {
    && Count(Reaching, r.log) <= MAX_SWITCHES
    && (!Unwinding(r) ==>
      && RetryFits(r, Top(r).phase)
      && Count(Reaching, r.log) <= Top(r).attempts + (if Dispatched(Top(r).phase) then 1 else 0))
    && forall id: nat :: WithinBudget(r, id)
  }

  /** A dispatch that has not ended the request uses up its budget exactly before the request moves on. */
  predicate WithinBudget(r: Request, id: nat) {
    var tries, budget := Count(TryOf(id), r.log), Budget(r, Count(ReachingOf(id), r.log));
    if !Unwinding(r) then tries + TriesLeft(r, Top(r).phase, id) == budget
    else tries <= budget && (Count(EndOn(id), r.log) == 0 ==> tries == budget)
  }

  lemma WithinBudgetMove(c: Settings, w: World, r: Request, ch: Choice, id: nat)
    requires r.stack != [] && Nested(r.stack) && KnownPhase(w, Top(r).phase) && Plan(c, w, r, ch).Some?
    requires !Unwinding(r) ==> RetryFits(r, Top(r).phase)
    requires WithinBudget(r, id)
    ensures WithinBudget(Perform(r, Plan(c, w, r, ch).value), id)
  {
    hide Plan, KnownPhase, Nested, Perform, Count;
    PlanOutline(c, w, r, ch);
    PerformTop(r, Plan(c, w, r, ch).value);
    PerformKeepsMethod(r, Plan(c, w, r, ch).value);
    CountMove(TryOf(id), c, w, r, ch);
    CountMove(ReachingOf(id), c, w, r, ch);
    CountMove(EndOn(id), c, w, r, ch);
  }

  lemma PerformKeepsMethod(r: Request, e: Effect)
    requires r.stack != []
    ensures Perform(r, e).verb == r.verb && Perform(r, e).cookie == r.cookie
  {
  }

  lemma BoundedMove(c: Settings, w: World, r: Request, ch: Choice)
    requires r.stack != [] && Nested(r.stack) && KnownPhase(w, Top(r).phase) && Plan(c, w, r, ch).Some?
    requires Bounded(r)
    ensures Bounded(Perform(r, Plan(c, w, r, ch).value))
  {
    hide Plan, KnownPhase, Nested, Perform, Count, WithinBudget;
    PlanOutline(c, w, r, ch);
    NestedMeans(r);
    PerformTop(r, Plan(c, w, r, ch).value);
    PerformKeepsMethod(r, Plan(c, w, r, ch).value);
    CountMove(Reaching, c, w, r, ch);
    var r' := Perform(r, Plan(c, w, r, ch).value);
    forall id: nat ensures WithinBudget(r', id) {
      WithinBudgetMove(c, w, r, ch, id);
    }
  }

  // ----- the sticky cookie

  function LastCookie(log: seq<Event>): Option<string> {
    if log == [] then None
    else if log[|log| - 1].Cookie? then Some(log[|log| - 1].url)
    else LastCookie(log[..|log| - 1])
  }

  lemma LastCookieOn(log: seq<Event>, e: Event)
    ensures LastCookie(log + [e]) == if e.Cookie? then Some(e.url) else LastCookie(log)
  {
    assert (log + [e])[..|log|] == log;
  }

  ghost predicate NoAnswers(log: seq<Event>) {
    forall k :: 0 <= k < |log| ==> !log[k].Answered?
  }

  /** Any answer in the log came from the backend the last cookie names. */
  ghost predicate AnswersNamed(w: World, log: seq<Event>) {
    forall k :: 0 <= k < |log| && log[k].Answered? ==>
      log[k].peer < |w.servers| && LastCookie(log) == Some(w.servers[log[k].peer].url)
  }

  ghost predicate Pinned(w: World, r: Request) {
    && AnswersNamed(w, r.log)
    && (!Unwinding(r) ==> NoAnswers(r.log))
    && (!Unwinding(r) && Dispatched(Top(r).phase) ==>
      Top(r).phase.peer < |w.servers| && LastCookie(r.log) == Some(w.servers[Top(r).phase.peer].url))
  }

  lemma PinnedAdmission(c: Settings, w: World, r: Request)
    requires c.sticky && r.stack != [] && Top(r).phase.Admitted? && KnownPhase(w, Top(r).phase) && NoAnswers(r.log)
    ensures var peer := Top(r).phase.peer;
      var url := w.servers[peer].url;
      Pinned(w, Perform(r, Become(Trying(peer, 0), [Cookie(url)] + [Reached(peer), Tried(peer)])))
  {
    var peer := Top(r).phase.peer;
    var url := w.servers[peer].url;
    LastCookieOn(r.log, Cookie(url));
    LastCookieOn(r.log + [Cookie(url)], Reached(peer));
    LastCookieOn(r.log + [Cookie(url)] + [Reached(peer)], Tried(peer));
    assert r.log + ([Cookie(url)] + [Reached(peer), Tried(peer)])
      == r.log + [Cookie(url)] + [Reached(peer)] + [Tried(peer)];
  }

  /** Any other step adds at most one event, not a cookie, and an answer only from the backend being tried. */
  lemma PinnedOn(w: World, r: Request, r': Request, events: seq<Event>)
    requires Pinned(w, r) && r'.log == r.log + events && |events| <= 1 && (events != [] ==> !events[0].Cookie?)
    requires events != [] && events[0].Answered? ==>
      !Unwinding(r) && Top(r).phase.Trying? && Top(r).phase.peer == events[0].peer && Unwinding(r')
    requires Unwinding(r) ==> Unwinding(r')
    requires !Unwinding(r') && Dispatched(Top(r').phase) ==>
      Dispatched(Top(r).phase) && Top(r').phase.peer == Top(r).phase.peer
    ensures Pinned(w, r')
  {
    hide LastCookie;
    if events == [] {
      assert r.log + events == r.log;
    } else {
      assert events == [events[0]];
      LastCookieOn(r.log, events[0]);
    }
  }

  lemma PinnedMove(c: Settings, w: World, r: Request, ch: Choice)
    requires r.stack != [] && Nested(r.stack) && KnownPhase(w, Top(r).phase) && Plan(c, w, r, ch).Some?
    requires c.sticky && Pinned(w, r)
    ensures Pinned(w, Perform(r, Plan(c, w, r, ch).value))
  {
    hide Plan, Nested, Perform, LastCookie, NoAnswers, AnswersNamed;
    var e := Plan(c, w, r, ch).value;
    PlanOutline(c, w, r, ch);
    if Top(r).phase.Admitted? {
      PinnedAdmission(c, w, r);
    } else {
      PerformTop(r, e);
      PerformLog(r, e);
      assert r.log + [] == r.log;
      PinnedOn(w, r, Perform(r, e), if e.Become? then e.events else if e.Reply? then [e.event] else []);
    }
  }

  // ----- every request of every reachable system

  ghost predicate Orderly(c: Settings, w: World, r: Request) {
    && Settled(r) && Uniform(r) && Matched(r) && Bounded(r) && AbandonsOnlyRetries(r) && Guarded(c, r)
    && KnownLog(w, r.log)
    && (c.sticky ==> Pinned(w, r))
  }

  /** Only the back-off of a repeatable method can be cut short. */
  ghost predicate AbandonsOnlyRetries(r: Request) {
    forall k :: 0 <= k < |r.log| && r.log[k].Abandoned? ==> r.Idempotent()
  }

  predicate OnBackend(e: Event) {
    e.Reached? || e.Tried? || e.Answered? || e.Abandoned? || e.Recorded?
  }

  ghost predicate KnownLog(w: World, log: seq<Event>) {
    forall k :: 0 <= k < |log| && OnBackend(log[k]) ==> log[k].peer < |w.servers|
  }

  lemma KnownLogMove(c: Settings, w: World, r: Request, ch: Choice)
    requires r.stack != [] && KnownPhase(w, Top(r).phase) && Plan(c, w, r, ch).Some?
    requires KnownLog(w, r.log)
    ensures KnownLog(w, Perform(r, Plan(c, w, r, ch).value).log)
  {
    hide Plan, Perform;
    PlanOutline(c, w, r, ch);
    PerformLog(r, Plan(c, w, r, ch).value);
  }

  /** Without breakers no frame filters, asks for admission or blames. */
  predicate Guarded(c: Settings, r: Request) {
    c.breaker.None? && r.stack != [] ==>
      !Top(r).phase.Filtering? && !Top(r).phase.Asking? && !Top(r).phase.Blaming?
  }

  lemma GuardedMove(c: Settings, w: World, r: Request, ch: Choice)
    requires r.stack != [] && Nested(r.stack) && KnownPhase(w, Top(r).phase) && Plan(c, w, r, ch).Some?
    requires Guarded(c, r)
    ensures Guarded(c, Perform(r, Plan(c, w, r, ch).value))
  {
    hide Plan, KnownPhase, Nested, Perform;
    PlanOutline(c, w, r, ch);
    PerformTop(r, Plan(c, w, r, ch).value);
  }

  lemma AbandonsMove(c: Settings, w: World, r: Request, ch: Choice)
    requires r.stack != [] && KnownPhase(w, Top(r).phase) && Plan(c, w, r, ch).Some?
    requires AbandonsOnlyRetries(r) && Bounded(r)
    ensures AbandonsOnlyRetries(Perform(r, Plan(c, w, r, ch).value))
  {
    hide Plan, Perform, Count;
    PlanOutline(c, w, r, ch);
    PerformLog(r, Plan(c, w, r, ch).value);
    PerformKeepsMethod(r, Plan(c, w, r, ch).value);
  }

  lemma OrderlyMove(c: Settings, w: World, r: Request, ch: Choice)
    requires r.stack != [] && Nested(r.stack) && KnownPhase(w, Top(r).phase) && Plan(c, w, r, ch).Some?
    requires Orderly(c, w, r)
    ensures Orderly(c, w, Perform(r, Plan(c, w, r, ch).value))
  {
    hide Plan, KnownPhase, Nested, Perform, Settled, Uniform, Matched, Bounded, Pinned, AbandonsOnlyRetries,
      Guarded, KnownLog;
    SettledMove(c, w, r, ch);
    UniformMove(c, w, r, ch);
    MatchedMove(c, w, r, ch);
    BoundedMove(c, w, r, ch);
    AbandonsMove(c, w, r, ch);
    GuardedMove(c, w, r, ch);
    KnownLogMove(c, w, r, ch);
    if c.sticky { PinnedMove(c, w, r, ch); }
  }

  lemma OrderlyOnArrival(c: Settings, w: World, r: Request)
    requires r.stack == [NewFrame(0)] && r.log == []
    ensures Orderly(c, w, r)
  {
    forall id: nat ensures Owed(Record, r.stack, id) == 0 {
      assert [] + [NewFrame(0)] == r.stack;
      OwedOn(Record, [], NewFrame(0), id);
    }
  }

  /** Backends are only ever added, and keep their URLs. */
  ghost predicate Extends(w: World, w': World) {
    |w.servers| <= |w'.servers| && forall id :: 0 <= id < |w.servers| ==> w'.servers[id].url == w.servers[id].url
  }

  lemma StepExtends(c: Settings, s: System, a: Action)
    requires Sound(s)
    ensures Extends(s.world, Next(c, s, a).world)
  {
    hide Plan, Touch, Perform, Nested, KnownStack, KnownPhase;
    if Enabled(c, s, a) && a.Run? { TouchKeepsServers(c, s.world, s.requests[a.request], a.choice); }
  }

  lemma OrderlyLater(c: Settings, w: World, w': World, r: Request)
    requires Orderly(c, w, r) && Extends(w, w')
    ensures Orderly(c, w', r)
  {
    hide Settled, Uniform, Matched, Bounded, LastCookie, AbandonsOnlyRetries;
  }

  lemma OrderlyStep(c: Settings, s: System, a: Action, i: nat)
    requires Sound(s) && i < |Next(c, s, a).requests|
    requires forall j :: 0 <= j < |s.requests| ==> Orderly(c, s.world, s.requests[j])
    ensures Orderly(c, Next(c, s, a).world, Next(c, s, a).requests[i])
  {
    hide Plan, Touch, Perform, Nested, KnownStack, KnownPhase, Orderly, Extends;
    var s' := Next(c, s, a);
    StepExtends(c, s, a);
    if i < |s.requests| && s'.requests[i] == s.requests[i] {
      OrderlyLater(c, s.world, s'.world, s.requests[i]);
    } else if a.Arrive? {
      OrderlyOnArrival(c, s'.world, s'.requests[i]);
    } else {
      OrderlyMove(c, s.world, s.requests[i], a.choice);
      OrderlyLater(c, s.world, s'.world, s'.requests[i]);
    }
  }

  lemma {:induction false} AlwaysOrderly(c: Settings, s: System, actions: seq<Action>, i: nat)
    requires Sound(s) && (forall j :: 0 <= j < |s.requests| ==> Orderly(c, s.world, s.requests[j]))
    requires i < |After(c, s, actions).requests|
    ensures Orderly(c, After(c, s, actions).world, After(c, s, actions).requests[i])
  {
    hide Next, Sound, Orderly;
    if actions != [] {
      var front := actions[..|actions| - 1];
      var t := After(c, s, front);
      forall j | 0 <= j < |t.requests| ensures Orderly(c, t.world, t.requests[j]) {
        AlwaysOrderly(c, s, front, j);
      }
      AlwaysSound(c, s, front);
      OrderlyStep(c, t, actions[|actions| - 1], i);
    }
  }

  /**
    A request gets at most one outcome, and exactly one once it is over: an upstream answer, a 503, or nothing
    because its client left during a back-off, which takes a repeatable method.
   */
  lemma ExactlyOneOutcome(c: Settings, s: System, actions: seq<Action>, i: nat)
    requires Initial(s) && i < |After(c, s, actions).requests|
    ensures var r := After(c, s, actions).requests[i];
      && Count(Outcome, r.log) <= 1
      && (r.stack == [] ==> Count(Outcome, r.log) == 1)
      && (forall k :: 0 <= k < |r.log| && r.log[k].Abandoned? ==> r.verb in ["GET", "HEAD", "OPTIONS"])
  {
    hide After;
    AlwaysOrderly(c, s, actions, i);
  }

  lemma {:induction false} OutcomeAt(log: seq<Event>, k: nat)
    requires k < |log| && Settles(log[k])
    ensures Count(Outcome, log) >= 1
  {
    if k < |log| - 1 { OutcomeAt(log[..|log| - 1], k); }
  }

  /** With one outcome, the final status is the one it stands for. */
  lemma {:induction false} StatusOfOutcome(log: seq<Event>, k: nat)
    requires k < |log| && Settles(log[k]) && Count(Outcome, log) <= 1
    ensures FinalStatus(log) == Some(if log[k].Answered? then log[k].code else if log[k].Refused? then 503 else 200)
  {
    var n := |log| - 1;
    if k < n {
      OutcomeAt(log[..n], k);
      StatusOfOutcome(log[..n], k);
    }
  }

  /**
    When a request is over, every dispatch of it, the failed ones too, has been recorded exactly once, and each
    record carries the status the client finally saw.
   */
  lemma EveryDispatchRecordsTheFinalStatus(c: Settings, s: System, actions: seq<Action>, i: nat, id: nat)
    requires Initial(s) && i < |After(c, s, actions).requests| && After(c, s, actions).requests[i].stack == []
    ensures var r := After(c, s, actions).requests[i];
      && Count(ReachingOf(id), r.log) == Count(RecordOf(id), r.log)
      && FinalStatus(r.log).Some?
      && (forall k :: 0 <= k < |r.log| && r.log[k].Recorded? ==> r.log[k].status == FinalStatus(r.log).value)
      && (forall k :: 0 <= k < |r.log| && r.log[k].Answered? ==> FinalStatus(r.log) == Some(r.log[k].code))
      && (forall k :: 0 <= k < |r.log| && r.log[k].Refused? ==> FinalStatus(r.log) == Some(503))
      && (forall k :: 0 <= k < |r.log| && r.log[k].Abandoned? ==> FinalStatus(r.log) == Some(200))
  {
    hide After, Count, FinalStatus;
    AlwaysOrderly(c, s, actions, i);
    var log := After(c, s, actions).requests[i].log;
    forall k | 0 <= k < |log| && Settles(log[k])
      ensures FinalStatus(log) == Some(if log[k].Answered? then log[k].code else if log[k].Refused? then 503 else 200)
    {
      StatusOfOutcome(log, k);
    }
  }

  /**
    At most three dispatches, and on each backend four tries a dispatch or one, as the method allows; a backend
    on which the request did not end has had exactly that many.
   */
  lemma DispatchBounds(c: Settings, s: System, actions: seq<Action>, i: nat, id: nat)
    requires Initial(s) && i < |After(c, s, actions).requests|
    ensures var r := After(c, s, actions).requests[i];
      var factor := if r.verb in ["GET", "HEAD", "OPTIONS"] then 4 else 1;
      && Count(Reaching, r.log) <= 3 && |r.stack| <= 4
      && Count(TryOf(id), r.log) <= factor * Count(ReachingOf(id), r.log)
      && (r.stack == [] && Count(EndOn(id), r.log) == 0 ==>
        Count(TryOf(id), r.log) == factor * Count(ReachingOf(id), r.log))
  {
    hide After, Count, Matched, Settled, Uniform, Pinned;
    AlwaysOrderly(c, s, actions, i);
    AlwaysSound(c, s, actions);
    assert WithinBudget(After(c, s, actions).requests[i], id);
  }

  /**
    The balancer answers 503 only after three switches or when no candidate was alive; the 503 of the error
    handler itself is never reached.
   */
  lemma RefusedOnlyWhen(c: Settings, s: System, actions: seq<Action>, i: nat, ch: Choice)
    requires Initial(s) && Enabled(c, After(c, s, actions), Run(i, ch))
    ensures var t := After(c, s, actions);
      var r := t.requests[i];
      var e := Plan(c, t.world, r, ch).value;
      e.Reply? && e.event.Refused? ==>
        || (|r.stack| == 4 && Top(r).phase.Entered?)
        || (Top(r).phase.Selecting? && forall k :: 0 <= k < |Top(r).phase.candidates| ==>
             Top(r).phase.candidates[k] < |t.world.servers| && !t.world.servers[Top(r).phase.candidates[k]].alive)
  {
    hide After, Nested, B.Allow, B.Eligible, Sound;
    var t := After(c, s, actions);
    InitiallySound(s);
    AlwaysSound(c, s, actions);
    SoundMeans(t, i);
    NestedMeans(t.requests[i]);
  }

  lemma SoundMeans(s: System, i: nat)
    requires Sound(s) && i < |s.requests|
    ensures Nested(s.requests[i].stack) && KnownStack(s.world, s.requests[i].stack)
  {
  }

  /** With stickiness on, the backend that answered is the one the last cookie names. */
  lemma CookieNamesTheAnswerer(c: Settings, s: System, actions: seq<Action>, i: nat, k: nat)
    requires Initial(s) && c.sticky && i < |After(c, s, actions).requests|
    requires k < |After(c, s, actions).requests[i].log| && After(c, s, actions).requests[i].log[k].Answered?
    ensures var t := After(c, s, actions);
      var r := t.requests[i];
      r.log[k].peer < |t.world.servers| && LastCookie(r.log) == Some(t.world.servers[r.log[k].peer].url)
  {
    hide After;
    AlwaysOrderly(c, s, actions, i);
  }
}
