/**
  What the breaker of a failing backend sees of failed dispatches. The error handler records a failure; then the
  outer frame records the status that came out in the end, on the same breaker. Rounds of several requests overlap.
 */
module MaskedFailures {
  import opened CircuitBreaker
  import opened BreakerTraces

  function Asks(h: seq<Event>): nat {
    if h == [] then 0 else Asks(Front(h)) + if h[|h| - 1].Ask? then 1 else 0
  }

  function Wins(h: seq<Event>): nat {
    if h == [] then 0 else Wins(Front(h)) + if h[|h| - 1].Win? then 1 else 0
  }

  function Losses(h: seq<Event>): nat {
    if h == [] then 0 else Losses(Front(h)) + if h[|h| - 1].Lose? then 1 else 0
  }

  /**
    Dispatches that all fail and are then recorded with the success of another backend, in any interleaving: at
    every point each loss follows an admission of its own, each win a loss of its own, and at most `n` dispatches
    have been asked for and not yet recorded.
   */
  ghost predicate FailingRounds(h: seq<Event>, n: nat) {
    && Wins(h) <= Losses(h) <= Asks(h) <= Wins(h) + n
    && (h != [] ==> FailingRounds(Front(h), n))
  }

  /** The failure count never exceeds the dispatches that failed and are not yet recorded. */
  lemma {:induction false} RoundsStayClosed(cfg: Config, h: seq<Event>, n: nat)
    requires FailingRounds(h, n) && n < cfg.failureThreshold
    ensures Run(cfg, h).phase == Closed && Run(cfg, h).failures <= Losses(h) - Wins(h)
  {
    if h != [] { RoundsStayClosed(cfg, Front(h), n); }
  }

  /** First all ask, then all fail, then all are recorded. */
  function Waves(asks: nat, losses: nat, wins: nat): seq<Event> {
    if wins > 0 then Waves(asks, losses, wins - 1) + [Win(0.0)]
    else if losses > 0 then Waves(asks, losses - 1, 0) + [Lose(0.0)]
    else if asks > 0 then Waves(asks - 1, 0, 0) + [Ask(0.0)]
    else []
  }

  lemma {:induction false} WavesAreRounds(asks: nat, losses: nat, wins: nat, n: nat)
    requires wins <= losses <= asks <= n
    ensures var h := Waves(asks, losses, wins);
      Asks(h) == asks && Losses(h) == losses && Wins(h) == wins && FailingRounds(h, n)
    decreases asks + losses + wins
  {
    var h := Waves(asks, losses, wins);
    if wins > 0 {
      WavesAreRounds(asks, losses, wins - 1, n);
      assert Front(h) == Waves(asks, losses, wins - 1);
    } else if losses > 0 {
      WavesAreRounds(asks, losses - 1, 0, n);
      assert Front(h) == Waves(asks, losses - 1, 0);
    } else if asks > 0 {
      WavesAreRounds(asks - 1, 0, 0, n);
      assert Front(h) == Waves(asks - 1, 0, 0);
    }
  }

  lemma {:induction false} WavesRun(cfg: Config, asks: nat, losses: nat, wins: nat)
    requires Proper(cfg) && losses <= cfg.failureThreshold && (wins > 0 ==> losses == cfg.failureThreshold)
    ensures var s := Run(cfg, Waves(asks, losses, wins));
      if losses < cfg.failureThreshold then s.phase == Closed && s.failures == losses else s.phase == Open
    decreases asks + losses + wins
  {
    hide Run;
    if wins > 0 {
      WavesRun(cfg, asks, losses, wins - 1);
      RunOn(cfg, Waves(asks, losses, wins - 1), Win(0.0));
    } else if losses > 0 {
      WavesRun(cfg, asks, losses - 1, 0);
      RunOn(cfg, Waves(asks, losses - 1, 0), Lose(0.0));
    } else if asks > 0 {
      WavesRun(cfg, asks - 1, 0, 0);
      RunOn(cfg, Waves(asks - 1, 0, 0), Ask(0.0));
    } else {
      RunOfNothing(cfg);
    }
  }

  lemma RunOfNothing(cfg: Config)
    ensures Run(cfg, []) == Fresh()
  {
  }

  /** As many overlapping rounds as the threshold open the circuit, although every one of them ends in a success. */
  lemma OverlapTrips(cfg: Config) returns (h: seq<Event>)
    requires Proper(cfg)
    ensures FailingRounds(h, cfg.failureThreshold) && Asks(h) == Losses(h) == Wins(h) == cfg.failureThreshold
    ensures Run(cfg, h).phase == Open
  {
    var t := cfg.failureThreshold;
    h := Waves(t, t, t);
    WavesAreRounds(t, t, t, t);
    WavesRun(cfg, t, t, t);
  }

  lemma {:induction false} MoreMayOverlap(h: seq<Event>, m: nat, n: nat)
    requires FailingRounds(h, m) && m <= n
    ensures FailingRounds(h, n)
  {
    if h != [] { MoreMayOverlap(Front(h), m, n); }
  }

  /** A backend that fails every dispatch, up to `n` at a time, keeps its circuit closed whatever their order. */
  ghost predicate MasksUpTo(cfg: Config, n: nat) {
    forall h :: FailingRounds(h, n) ==> Run(cfg, h).phase == Closed
  }

  /** Failover hides failing dispatches from the breaker exactly while fewer overlap than its threshold. */
  lemma MasksExactly(cfg: Config, n: nat)
    requires Proper(cfg)
    ensures MasksUpTo(cfg, n) <==> cfg.failureThreshold > n
  {
    hide FailingRounds, Run;
    if cfg.failureThreshold > n {
      forall h | FailingRounds(h, n) ensures Run(cfg, h).phase == Closed { RoundsStayClosed(cfg, h, n); }
    } else {
      var h := OverlapTrips(cfg);
      MoreMayOverlap(h, cfg.failureThreshold, n);
    }
  }

  // ----- one after another

  /** The instants of one dispatch: admission, the failure, and the final record. */
  datatype Round = Round(asked: real, failed: real, recorded: real)

  /** Dispatches that follow one another, each failing while another backend answers. */
  function Calls(rounds: seq<Round>): seq<Event> {
    if rounds == [] then []
    else
      var r := rounds[|rounds| - 1];
      Calls(rounds[..|rounds| - 1]) + [Ask(r.asked)] + [Lose(r.failed)] + [Win(r.recorded)]
  }

  lemma RoundsOn(h: seq<Event>, e: Event, n: nat)
    ensures Asks(h + [e]) == Asks(h) + if e.Ask? then 1 else 0
    ensures Losses(h + [e]) == Losses(h) + if e.Lose? then 1 else 0
    ensures Wins(h + [e]) == Wins(h) + if e.Win? then 1 else 0
    ensures FailingRounds(h + [e], n) <==>
      FailingRounds(h, n) && Wins(h + [e]) <= Losses(h + [e]) <= Asks(h + [e]) <= Wins(h + [e]) + n
  {
    assert Front(h + [e]) == h;
  }

  lemma {:induction false} CallsAreRounds(rounds: seq<Round>)
    ensures var h := Calls(rounds);
      FailingRounds(h, 1) && Asks(h) == Losses(h) == Wins(h) == |rounds|
  {
    if rounds != [] {
      hide FailingRounds, Asks, Losses, Wins;
      var r, h := rounds[|rounds| - 1], Calls(rounds[..|rounds| - 1]);
      CallsAreRounds(rounds[..|rounds| - 1]);
      RoundsOn(h, Ask(r.asked), 1);
      RoundsOn(h + [Ask(r.asked)], Lose(r.failed), 1);
      RoundsOn(h + [Ask(r.asked)] + [Lose(r.failed)], Win(r.recorded), 1);
    }
  }

  /**
    When its dispatches follow one another, a failing backend's circuit ends closed exactly when the threshold is
    at least 2; with a threshold of 1 it ends open.
   */
  lemma {:induction false} FailoverMasksFailures(cfg: Config, rounds: seq<Round>)
    requires Proper(cfg) && rounds != []
    ensures Run(cfg, Calls(rounds)).phase == Closed <==> cfg.failureThreshold >= 2
    ensures cfg.failureThreshold >= 2 ==> Run(cfg, Calls(rounds)).failures == 0
    ensures cfg.failureThreshold == 1 ==> Run(cfg, Calls(rounds)).phase == Open
  {
    hide Run;
    CallsAreRounds(rounds);
    if cfg.failureThreshold >= 2 {
      RoundsStayClosed(cfg, Calls(rounds), 1);
      ClosedCountsNothingNegative(cfg, Calls(rounds));
    } else {
      var r, h := rounds[|rounds| - 1], Calls(rounds[..|rounds| - 1]);
      RunOn(cfg, h + [Ask(r.asked)], Lose(r.failed));
      RunOn(cfg, h + [Ask(r.asked)] + [Lose(r.failed)], Win(r.recorded));
      ClosedCountsNothingNegative(cfg, h + [Ask(r.asked)]);
    }
  }

  lemma {:induction false} ClosedCountsNothingNegative(cfg: Config, h: seq<Event>)
    ensures Run(cfg, h).failures >= 0
  {
    if h != [] { ClosedCountsNothingNegative(cfg, Front(h)); }
  }

  // ----- nobody answers

  /** Dispatches that fail twice each, once by the error handler and once by the final 503, in any interleaving. */
  ghost predicate UnansweredRounds(h: seq<Event>) {
    && Wins(h) == 0 && Losses(h) <= 2 * Asks(h)
    && (h != [] ==> UnansweredRounds(Front(h)))
  }

  lemma {:induction false} WithoutWins(cfg: Config, h: seq<Event>)
    requires Proper(cfg) && Wins(h) == 0
    ensures Run(cfg, h).phase == Closed <==> Losses(h) < cfg.failureThreshold
    ensures Run(cfg, h).phase == Closed ==> Run(cfg, h).failures == Losses(h)
  {
    if h != [] { WithoutWins(cfg, Front(h)); }
  }

  /**
    When nobody answers, each dispatch counts as two failures: once all rounds are complete, in whatever order they
    overlapped, the circuit is closed exactly when twice their number is below the threshold, and open otherwise.
   */
  lemma UnansweredCountsTwice(cfg: Config, h: seq<Event>)
    requires Proper(cfg) && UnansweredRounds(h) && Losses(h) == 2 * Asks(h)
    ensures Run(cfg, h).phase == (if 2 * Asks(h) < cfg.failureThreshold then Closed else Open)
  {
    WithoutWins(cfg, h);
    if h != [] {
      assert UnansweredRounds(Front(h));
      assert !h[|h| - 1].Ask?;
    }
  }
}
