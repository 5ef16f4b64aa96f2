/**
  The request limiter of internal/ratelimit/ratelimit.go: one global bucket, or one bucket per client IP in
  a map from which idle clients are evicted.
 */
module Limiter {
  import T = TokenBucket

  const IDLE_SECONDS: real := 300.0

  datatype Result<+V> = Success(value: V) | RateNotPositive | BurstBelowOne

  /** A bucket and the whole second at which its client was last seen. */
  datatype Slot = Slot(bucket: T.State, lastSeen: int)

  type Slots = map<string, Slot>

  /**
    One uninterrupted call of a client, and its answer. The clock is read for the stamp, again when a bucket is
    made, and again when the token is taken.
   */
  function Answered(slots: Slots, rate: real, burst: int, ip: string, stamp: real, made: real, taken: real)
    : (Slots, bool)
  {
    var bucket := if ip in slots then slots[ip].bucket else T.New(rate, burst, made);
    var (bucket', ok) := T.Allow(bucket, taken);
    (slots[ip := Slot(bucket', stamp.Floor)], ok)
  }

  /** One cleanup: slots last seen before the cutoff second are dropped. */
  function Evicted(slots: Slots, now: real): Slots {
    map ip | ip in slots && !(slots[ip].lastSeen < (now - IDLE_SECONDS).Floor) :: slots[ip]
  }

  /** The slot's last stamp was read at an instant of the second it keeps. */
  predicate StampedAt(slot: Slot, stamp: real) {
    slot.lastSeen == stamp.Floor
  }

  /** A slot stamped within the last 300 seconds stays as it is, and one stamped 301 seconds ago or more is gone. */
  ghost predicate KeptByAge(before: Slots, after: Slots, now: real) {
    && after.Keys <= before.Keys
    && (forall ip, stamp: real :: ip in before && StampedAt(before[ip], stamp) && stamp >= now - 300.0 ==>
          ip in after && after[ip] == before[ip])
    && (forall ip, stamp: real :: ip in before && StampedAt(before[ip], stamp) && stamp <= now - 301.0 ==>
          ip !in after)
  }

  lemma EvictedByAge(slots: Slots, now: real)
    ensures KeptByAge(slots, Evicted(slots, now), now)
  {
  }

  class Entry {
    const bucket: T.Bucket
    var lastSeen: int
    ghost const owner: string

    constructor (bucket: T.Bucket, lastSeen: int)
      ensures this.bucket == bucket && this.lastSeen == lastSeen && owner == bucket.owner
    {
      this.bucket, this.lastSeen, owner := bucket, lastSeen, bucket.owner;
    }
  }

  class RateLimiter {
    const global: T.Bucket?
    const rate: real
    const burst: int
    const perIPOn: bool
    var perIP: map<string, Entry>
    ghost var Repr: set<object>

    /** There is a global bucket or per-client ones, and every client has an entry and a bucket of its own. */
    ghost predicate Valid()
      reads this, Repr
    {
      && this in Repr
      && (perIPOn <==> global == null)
      && (!perIPOn ==> global in Repr && perIP == map[])
      && forall ip :: ip in perIP ==>
        && perIP[ip] in Repr && perIP[ip].owner == ip
        && perIP[ip].bucket in Repr && perIP[ip].bucket.owner == ip
    }

    ghost function View(): Slots
      requires Valid()
      reads this, Repr
    {
      map ip | ip in perIP :: Slot(perIP[ip].bucket.View(), perIP[ip].lastSeen)
    }

    constructor (rate: real, burst: int, perIPOn: bool, now: real)
      ensures Valid() && fresh(Repr)
      ensures this.rate == rate && this.burst == burst && this.perIPOn == perIPOn
      ensures View() == map[]
      ensures !perIPOn ==> global.View() == T.New(rate, burst, now)
    {
      this.rate, this.burst, this.perIPOn := rate, burst, perIPOn;
      perIP := map[];
      if !perIPOn {
        var bucket := new T.Bucket(rate, burst, now, "");
        global := bucket;
        Repr := {this, bucket};
      } else {
        global := null;
        Repr := {this};
      }
    }

    static method New(rps: real, burst: int, perIPOn: bool, now: real) returns (r: Result<RateLimiter>)
      ensures r.RateNotPositive? <==> rps <= 0.0
      ensures r.BurstBelowOne? <==> rps > 0.0 && burst < 1
      ensures r.Success? ==>
        && fresh(r.value) && r.value.Valid() && r.value.View() == map[]
        && r.value.rate == rps && r.value.burst == burst && r.value.perIPOn == perIPOn
        && (!perIPOn ==> r.value.global.View() == T.New(rps, burst, now) && T.Valid(r.value.global.View()))
    {
      if rps <= 0.0 {
        return RateNotPositive;
      }
      if burst < 1 {
        return BurstBelowOne;
      }
      var l := new RateLimiter(rps, burst, perIPOn, now);
      return Success(l);
    }

    /** The entry of a client, created with a full bucket when there is none. */
    method Lookup(ip: string, stamp: real, made: real) returns (e: Entry)
      requires Valid() && perIPOn
      modifies this
      ensures Valid() && fresh(Repr - old(Repr)) && old(Repr) <= Repr
      ensures ip in perIP && e == perIP[ip]
      ensures View() == if ip in old(View()) then old(View())
                        else old(View())[ip := Slot(T.New(rate, burst, made), stamp.Floor)]
    {
      if ip !in perIP {
        var bucket := new T.Bucket(rate, burst, made, ip);
        e := new Entry(bucket, stamp.Floor);
        perIP := perIP[ip := e];
        Repr := Repr + {e, bucket};
      }
      e := perIP[ip];
    }

    /** Stamps a client's entry and takes a token from its bucket. */
    method Use(e: Entry, ghost ip: string, stamp: real, taken: real) returns (ok: bool)
      requires Valid() && ip in perIP && perIP[ip] == e
      modifies e, e.bucket
      ensures Valid() && ip in old(View())
      ensures ok == T.Allow(old(View())[ip].bucket, taken).1
      ensures View() == old(View())[ip := Slot(T.Allow(old(View())[ip].bucket, taken).0, stamp.Floor)]
    {
      hide T.Allow;
      e.lastSeen := stamp.Floor;
      ok := e.bucket.TryTake(taken);
    }

    method Allow(ip: string, stamp: real, made: real, taken: real) returns (ok: bool)
      requires Valid()
      modifies Repr
      ensures Valid() && fresh(Repr - old(Repr))
      ensures perIPOn ==> (View(), ok) == Answered(old(View()), rate, burst, ip, stamp, made, taken)
      ensures !perIPOn ==> (global.View(), ok) == T.Allow(old(global.View()), taken) && View() == old(View())
    {
      hide T.New, T.Allow, T.Valid;
      if !perIPOn {
        ok := global.TryTake(taken);
        return;
      }
      var e := Lookup(ip, stamp, made);
      ok := Use(e, ip, stamp, taken);
      assert View() == old(View())[ip := View()[ip]];
    }

    /** The Retry-After seconds for a client; a client without an entry is told one second. */
    method RetryAfter(ip: string) returns (secs: int)
      requires Valid()
      ensures secs == if !perIPOn then T.RetryAfter(global.View())
                      else if ip in View() then T.RetryAfter(View()[ip].bucket) else 1
    {
      if !perIPOn {
        secs := global.RetryAfterSeconds();
        return;
      }
      if ip !in perIP {
        return 1;
      }
      secs := perIP[ip].bucket.RetryAfterSeconds();
    }

    /** One round of the cleanup loop. */
    method Cleanup(now: real)
      requires Valid()
      modifies this
      ensures Valid() && Repr == old(Repr)
      ensures View() == Evicted(old(View()), now)
      ensures KeptByAge(old(View()), View(), now)
    {
      hide KeptByAge;
      ghost var before := View();
      Sweep(now);
      EvictedByAge(before, now);
    }

    /** Visits the entries in any order. */
    method Sweep(now: real)
      requires Valid()
      modifies this
      ensures Valid() && Repr == old(Repr)
      ensures View() == Evicted(old(View()), now)
    {
      var cutoff := (now - IDLE_SECONDS).Floor;
      ghost var all := perIP;
      var todo := perIP.Keys;
      while todo != {}
        invariant todo <= all.Keys && Repr == old(Repr)
        invariant perIP == map ip | ip in all && (ip in todo || !(all[ip].lastSeen < cutoff)) :: all[ip]
      {
        var key :| key in todo;
        if perIP[key].lastSeen < cutoff {
          perIP := perIP - {key};
        }
        todo := todo - {key};
      }
    }
  }
}
