/** Replay protection of signed requests: a timestamp window and a cache of nonces.
    The clock ticks `rate` times a second; timestamps are whole seconds. */
module ReplayGuard {

  // ----------------------------------------------------------- the rule

  /** A request whose headers are present and whose timestamp is an integer. */
  datatype Request = Request(timestamp: int, nonce: string, signed: bool)

  /** The clock is read twice: when the window is checked, and again when the nonce is,
      after the body has been awaited. */
  datatype Arrival = Arrival(request: Request, at: int, done: int)

  /** Lifetime and skew in seconds; `offset` is the wall clock against the monotonic one. */
  datatype Guard = Guard(ttl: int, skew: int, rate: int, offset: int)

  type Nonces = map<string, int>

  /** The nonces not yet expired; an entry is gone once its expiry is reached. */
  function Live(seen: Nonces, now: int): Nonces {
    map k | k in seen && seen[k] > now :: seen[k]
  }

  function Distance(a: int, b: int): nat {
    if a < b then b - a else a - b
  }

  /** The wall clock in whole seconds, when the monotonic clock shows `now` ticks. */
  function Wall(now: int, offset: int, rate: int): int
    requires rate > 0
  {
    (now + offset) / rate
  }

  predicate InWindow(request: Request, wall: int, skew: int) {
    Distance(wall, request.timestamp) <= skew
  }

  predicate Accepts(g: Guard, seen: Nonces, a: Arrival)
    requires g.rate > 0
  {
    && InWindow(a.request, Wall(a.at, g.offset, g.rate), g.skew)
    && a.request.signed && a.request.nonce !in Live(seen, a.done)
  }

  /** The live part of a store after one arrival. */
  function Stored(g: Guard, seen: Nonces, a: Arrival): Nonces
    requires g.rate > 0
  {
    if Accepts(g, seen, a) then Live(seen, a.done)[a.request.nonce := a.done + g.ttl * g.rate] else Live(seen, a.done)
  }

  // ------------------------------------------------------- the two stores

  /** The Network Agent's in-process cache. */
  class NonceCache {
    const ttl: int
    var seen: Nonces

    constructor (ttl: int)
      ensures this.ttl == ttl && seen == map[]
    {
      this.ttl := ttl;
      seen := map[];
    }

    method SeenBefore(nonce: string, now: int) returns (replay: bool)
      modifies this
      ensures replay <==> nonce in old(Live(seen, now))
      ensures seen == if replay then old(Live(seen, now)) else old(Live(seen, now))[nonce := now + ttl]
    {
      PurgeExpired(now);
      if nonce in seen {
        return true;
      }
      seen := seen[nonce := now + ttl];
      return false;
    }

    method PurgeExpired(now: int)
      modifies this`seen
      ensures seen == old(Live(seen, now))
    {
      var expired := set k | k in seen && seen[k] <= now;
      while expired != {}
        invariant expired <= seen.Keys
        invariant forall k :: k in expired ==> seen[k] <= now
        invariant Live(seen, now) == old(Live(seen, now))
        invariant forall k :: k in seen && seen[k] <= now ==> k in expired
        decreases expired
      {
        var key :| key in expired;
        expired := expired - {key};
        seen := seen - {key};
      }
      assert seen == Live(seen, now);
    }

    /** The agent's rule: window, then signature, then nonce. */
    method VerifyAgentSignature(g: Guard, a: Arrival) returns (ok: bool)
      requires g.rate > 0 && ttl == g.ttl * g.rate
      modifies this
      ensures ok <==>
                && a.request.signed
                && -g.skew <= (a.at + g.offset) / g.rate - a.request.timestamp <= g.skew
                && !(a.request.nonce in old(seen) && old(seen)[a.request.nonce] > a.done)
      ensures ok ==> a.request.nonce in seen && seen[a.request.nonce] == a.done + ttl
      ensures forall n :: n in seen && !(ok && n == a.request.nonce) ==> n in old(seen) && seen[n] == old(seen)[n]
      ensures forall n :: n in old(seen) && old(seen)[n] > a.done ==> n in seen
      ensures ok <==> Accepts(g, old(seen), a)
      ensures Live(seen, a.done) == Live(Stored(g, old(seen), a), a.done)
    {
      if Distance(Wall(a.at, g.offset, g.rate), a.request.timestamp) > g.skew || !a.request.signed {
        return false;
      }
      var replay := SeenBefore(a.request.nonce, a.done);
      return !replay;
    }
  }

  /** The backend's shared store: keys with an expiry, which read as absent once reached. */
  class KeyStore {
    const ttl: int
    var keys: Nonces

    constructor (ttl: int)
      ensures this.ttl == ttl && keys == map[]
    {
      this.ttl := ttl;
      keys := map[];
    }

    /** SET NX EX: claims a key unless it is live. */
    method Claim(key: string, now: int) returns (claimed: bool)
      modifies this
      ensures claimed <==> key !in old(Live(keys, now))
      ensures keys == if claimed then old(keys)[key := now + ttl] else old(keys)
    {
      if key in keys && keys[key] > now {
        return false;
      }
      keys := keys[key := now + ttl];
      return true;
    }

    /** The backend's rule, the same as the agent's over this store. */
    method VerifyInternalRequest(g: Guard, a: Arrival) returns (ok: bool)
      requires g.rate > 0 && ttl == g.ttl * g.rate
      modifies this
      ensures ok <==>
                && a.request.signed
                && -g.skew <= (a.at + g.offset) / g.rate - a.request.timestamp <= g.skew
                && !(a.request.nonce in old(keys) && old(keys)[a.request.nonce] > a.done)
      ensures ok ==> a.request.nonce in keys && keys[a.request.nonce] == a.done + ttl
      ensures forall n :: n in keys && !(ok && n == a.request.nonce) ==> n in old(keys) && keys[n] == old(keys)[n]
      ensures forall n :: n in old(keys) && old(keys)[n] > a.done ==> n in keys
      ensures ok <==> Accepts(g, old(keys), a)
      ensures Live(keys, a.done) == Live(Stored(g, old(keys), a), a.done)
    {
      if Distance(Wall(a.at, g.offset, g.rate), a.request.timestamp) > g.skew || !a.request.signed {
        return false;
      }
      ok := Claim(a.request.nonce, a.done);
    }
  }

  // -------------------------------------------------- series of arrivals

  /** Stores that agree on what is live answer every later arrival alike and go on
      agreeing: when expired entries are dropped, by the agent's purge or by the key
      store's own expiry, never shows. */
  lemma PurgingNeverShows(g: Guard, seen: Nonces, seen': Nonces, now: int, a: Arrival)
    requires g.rate > 0 && now <= a.done && Live(seen, now) == Live(seen', now)
    ensures Accepts(g, seen, a) <==> Accepts(g, seen', a)
    ensures Live(Stored(g, seen, a), a.done) == Live(Stored(g, seen', a), a.done)
  {
    assert forall s: Nonces :: Live(Live(s, now), a.done) == Live(s, a.done);
  }

  /** The live store after a series of arrivals. */
  function Store(g: Guard, arrivals: seq<Arrival>): Nonces
    requires g.rate > 0
  {
    if |arrivals| == 0 then map[] else
    Stored(g, Store(g, arrivals[..|arrivals| - 1]), arrivals[|arrivals| - 1])
  }

  predicate AcceptedAt(g: Guard, arrivals: seq<Arrival>, k: nat)
    requires g.rate > 0 && k < |arrivals|
  {
    Accepts(g, Store(g, arrivals[..k]), arrivals[k])
  }

  /** Nonces are checked one after another, each at most `delay` ticks after its window. */
  predicate InOrder(arrivals: seq<Arrival>, delay: nat) {
    && (forall i, j :: 0 <= i < j < |arrivals| ==> arrivals[i].done <= arrivals[j].done)
    && (forall i :: 0 <= i < |arrivals| ==> arrivals[i].at <= arrivals[i].done <= arrivals[i].at + delay)
  }

  /** The rule over a whole series, without the store: signed, within the window, and no
      earlier accepted request with the same nonce still within its lifetime. */
  predicate Deserved(g: Guard, arrivals: seq<Arrival>, k: nat)
    requires g.rate > 0 && k < |arrivals|
  {
    var a := arrivals[k];
    && a.request.signed
    && -g.skew <= (a.at + g.offset) / g.rate - a.request.timestamp <= g.skew
    && !Remembered(g, arrivals, k, a.request.nonce, a.done)
  }

  predicate Remembered(g: Guard, arrivals: seq<Arrival>, k: nat, nonce: string, now: int)
    requires g.rate > 0 && k <= |arrivals|
  {
    exists j :: 0 <= j < k && AcceptedAt(g, arrivals, j)
                && arrivals[j].request.nonce == nonce && arrivals[j].done + g.ttl * g.rate > now
  }

  /** What the store has live is what was accepted within its lifetime. */
  lemma {:induction false} StoreRemembers(g: Guard, arrivals: seq<Arrival>, delay: nat, k: nat, nonce: string, now: int)
    requires g.rate > 0 && InOrder(arrivals, delay) && k <= |arrivals|
    requires k > 0 ==> arrivals[k - 1].done <= now
    ensures nonce in Live(Store(g, arrivals[..k]), now) <==> Remembered(g, arrivals, k, nonce, now)
  {
    if k > 0 {
      var a := arrivals[k - 1];
      assert arrivals[..k][..k - 1] == arrivals[..k - 1];
      assert k > 1 ==> arrivals[k - 2].done <= a.done;
      StoreRemembers(g, arrivals, delay, k - 1, nonce, now);
      StoreRemembers(g, arrivals, delay, k - 1, a.request.nonce, a.done);
    }
  }

  /** Over every series a request is accepted exactly when it deserves to be; an unsigned
      one, in particular, never is. */
  lemma {:induction false} AcceptedIffDeserved(g: Guard, arrivals: seq<Arrival>, delay: nat, k: nat)
    requires g.rate > 0 && InOrder(arrivals, delay) && k < |arrivals|
    ensures AcceptedAt(g, arrivals, k) <==> Deserved(g, arrivals, k)
    ensures !arrivals[k].request.signed ==> !AcceptedAt(g, arrivals, k)
  {
    assert k > 0 ==> arrivals[k - 1].done <= arrivals[k].done;
    StoreRemembers(g, arrivals, delay, k, arrivals[k].request.nonce, arrivals[k].done);
  }

  predicate SamePair(a: Arrival, b: Arrival) {
    a.request.timestamp == b.request.timestamp && a.request.nonce == b.request.nonce
  }

  /** Over every series of arrivals, no timestamp and nonce are accepted twice together. */
  ghost predicate ReplaySafe(ttl: int, skew: int, rate: int, delay: nat)
    requires rate > 0
  {
    forall offset: int, arrivals: seq<Arrival> ::
      InOrder(arrivals, delay) ==> NeverTwice(Guard(ttl, skew, rate, offset), arrivals)
  }

  ghost predicate NeverTwice(g: Guard, arrivals: seq<Arrival>)
    requires g.rate > 0
  {
    forall i, j :: 0 <= i < j < |arrivals| && SamePair(arrivals[i], arrivals[j]) ==>
      !(AcceptedAt(g, arrivals, i) && AcceptedAt(g, arrivals, j))
  }

  /** An accepted nonce stays in the store until its time-to-live is over. */
  lemma {:induction false} StaysLive(g: Guard, arrivals: seq<Arrival>, delay: nat, i: nat, j: nat)
    requires g.rate > 0 && InOrder(arrivals, delay) && i < j <= |arrivals|
    requires AcceptedAt(g, arrivals, i)
    ensures var store, expiry := Store(g, arrivals[..j]), arrivals[i].done + g.ttl * g.rate;
            arrivals[j - 1].done < expiry ==>
              arrivals[i].request.nonce in store && store[arrivals[i].request.nonce] >= expiry
  {
    assert arrivals[..j][..j - 1] == arrivals[..j - 1];
    if i < j - 1 {
      StaysLive(g, arrivals, delay, i, j - 1);
      assert arrivals[j - 2].done <= arrivals[j - 1].done && arrivals[i].done <= arrivals[j - 1].done;
    }
  }

  /** Two arrivals within the window of one timestamp are less than 2 * skew + 1 seconds apart. */
  lemma WindowWidth(g: Guard, a: Arrival, b: Arrival)
    requires g.rate > 0 && SamePair(a, b)
    requires InWindow(a.request, Wall(a.at, g.offset, g.rate), g.skew)
    requires InWindow(b.request, Wall(b.at, g.offset, g.rate), g.skew)
    ensures b.at - a.at < (2 * g.skew + 1) * g.rate
  {
    var p, q := Wall(a.at, g.offset, g.rate), Wall(b.at, g.offset, g.rate);
    assert q - p <= 2 * g.skew;
    assert g.rate * q <= b.at + g.offset < g.rate * q + g.rate;
    assert g.rate * p <= a.at + g.offset;
    assert g.rate * (2 * g.skew - (q - p)) >= 0;
    assert g.rate * (2 * g.skew - (q - p)) == (2 * g.skew) * g.rate - g.rate * q + g.rate * p;
    assert (2 * g.skew + 1) * g.rate == (2 * g.skew) * g.rate + g.rate;
  }

  /** A nonce outlives the window of its timestamp by as long as a body may take. */
  predicate OutlivesWindow(ttl: int, skew: int, rate: int, delay: nat) {
    ttl * rate >= (2 * skew + 1) * rate + delay
  }

  lemma {:induction false} NoReplay(g: Guard, arrivals: seq<Arrival>, delay: nat)
    requires g.rate > 0 && OutlivesWindow(g.ttl, g.skew, g.rate, delay) && InOrder(arrivals, delay)
    ensures NeverTwice(g, arrivals)
  {
    forall i, j | 0 <= i < j < |arrivals| && SamePair(arrivals[i], arrivals[j])
      ensures !(AcceptedAt(g, arrivals, i) && AcceptedAt(g, arrivals, j))
    {
      assert j > i + 1 ==> arrivals[j - 1].done <= arrivals[j].done;
      if AcceptedAt(g, arrivals, i) && AcceptedAt(g, arrivals, j) {
        WindowWidth(g, arrivals[i], arrivals[j]);
        StaysLive(g, arrivals, delay, i, j);
      }
    }
  }

  /** The same pair at both ends of its window, the second with a body that takes as long
      as it may. */
  function BoundarySchedule(skew: int, rate: int, delay: nat): seq<Arrival> {
    var request, last := Request(skew, "n", true), (2 * skew + 1) * rate - 1;
    [Arrival(request, 0, 0), Arrival(request, last, last + delay)]
  }

  lemma BoundaryFails(ttl: int, skew: int, rate: int, delay: nat)
    requires rate > 0 && skew >= 0 && !OutlivesWindow(ttl, skew, rate, delay)
    ensures InOrder(BoundarySchedule(skew, rate, delay), delay)
    ensures !NeverTwice(Guard(ttl, skew, rate, 0), BoundarySchedule(skew, rate, delay))
  {
    var g, arrivals := Guard(ttl, skew, rate, 0), BoundarySchedule(skew, rate, delay);
    assert (2 * skew + 1) * rate == 2 * skew * rate + rate && 2 * skew * rate >= 0;
    assert Wall(0, 0, rate) == 0;
    assert Wall(arrivals[1].at, 0, rate) == 2 * skew by {
      LastTick(2 * skew, rate);
    }
    assert arrivals[..0] == [];
    assert AcceptedAt(g, arrivals, 0);
    assert arrivals[..1] == [arrivals[0]] && [arrivals[0]][..0] == [];
    assert Store(g, arrivals[..1]) == map["n" := ttl * rate];
    assert AcceptedAt(g, arrivals, 1);
    assert SamePair(arrivals[0], arrivals[1]);
  }

  /** The last tick of the q-th second is still in it. */
  lemma LastTick(q: int, rate: int)
    requires rate > 0
    ensures ((q + 1) * rate - 1 + 0) / rate == q
  {
    var p := ((q + 1) * rate - 1) / rate;
    assert rate * p <= (q + 1) * rate - 1 < rate * p + rate;
    assert (q + 1) * rate == q * rate + rate;
    if p < q {
      Further(p, q, rate);
    } else if q < p {
      Further(q, p, rate);
    }
  }

  lemma Further(p: int, q: int, rate: int)
    requires rate > 0 && p < q
    ensures q * rate >= rate * p + rate
  {
    var k := q - p - 1;
    assert rate * k >= 0;
    assert q * rate == rate * p + rate + rate * k;
  }

  /** The guard is replay-safe exactly when nonces outlive the window, twice the skew and
      the second it ends in, by as long as a request's body may be awaited in between. */
  lemma ReplaySafeIff(ttl: int, skew: int, rate: int, delay: nat)
    requires rate > 0 && skew >= 0
    ensures ReplaySafe(ttl, skew, rate, delay) <==> OutlivesWindow(ttl, skew, rate, delay)
  {
    if OutlivesWindow(ttl, skew, rate, delay) {
      forall offset: int, arrivals: seq<Arrival> | InOrder(arrivals, delay)
        ensures NeverTwice(Guard(ttl, skew, rate, offset), arrivals)
      {
        NoReplay(Guard(ttl, skew, rate, offset), arrivals, delay);
      }
    } else {
      BoundaryFails(ttl, skew, rate, delay);
    }
  }

  /** In whole seconds: safe exactly when the lifetime is more than twice the skew and the
      delay together. */
  lemma ReplaySafeInSeconds(ttl: int, skew: int, rate: int, seconds: nat)
    requires rate > 0 && skew >= 0
    ensures seconds * rate >= 0
    ensures ReplaySafe(ttl, skew, rate, seconds * rate) <==> ttl > 2 * skew + seconds
  {
    var delay := seconds * rate;
    assert delay >= 0;
    Spare(ttl, 2 * skew + 1, rate, seconds);
    ReplaySafeIff(ttl, skew, rate, delay);
  }

  lemma Spare(ttl: int, width: int, rate: int, seconds: nat)
    requires rate > 0
    ensures ttl * rate >= width * rate + seconds * rate <==> ttl >= width + seconds
  {
    var spare := ttl - (width + seconds);
    assert ttl * rate == width * rate + seconds * rate + spare * rate;
    if spare >= 0 {
      assert spare * rate >= 0;
    } else {
      assert spare * rate < 0;
    }
  }

  const AGENT_TTL := 600
  const AGENT_SKEW := 300
  const INTERNAL_TTL := 300
  const INTERNAL_SKEW := 90

  /** The backend's defaults are safe as long as no body takes two minutes. The agent's are
      not, however quick the body: they sit on the boundary where the guarantee stops,
      although its configuration documents twice the skew as enough. */
  lemma Defaults(rate: int, seconds: nat)
    requires rate > 0
    ensures seconds * rate >= 0
    ensures ReplaySafe(INTERNAL_TTL, INTERNAL_SKEW, rate, seconds * rate) <==> seconds < 120
    ensures !ReplaySafe(AGENT_TTL, AGENT_SKEW, rate, seconds * rate)
  {
    ReplaySafeInSeconds(INTERNAL_TTL, INTERNAL_SKEW, rate, seconds);
    ReplaySafeInSeconds(AGENT_TTL, AGENT_SKEW, rate, seconds);
  }
}
