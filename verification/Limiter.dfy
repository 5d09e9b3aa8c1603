/** The process-local token bucket limiter, over real seconds and a clock that never goes back. */
module Limiter {

  datatype Bucket = Bucket(tokens: real, updated: real, lastSeen: real)
  datatype Answer = Answer(allowed: bool, retry: int)
  datatype State = State(entries: map<string, Bucket>, capacity: nat, swept: real)
  datatype Call = Call(key: string, rate: nat, now: real)

  const MINUTE := 60.0
  const IDLE := 600.0
  const FULL := Answer(false, 60)

  function Least(x: real, y: real): real { if x < y then x else y }

  function Ceiling(x: real): int { -((-x).Floor) }

  function Live(entries: map<string, Bucket>, now: real): map<string, Bucket> {
    map k | k in entries && now - entries[k].lastSeen < IDLE :: entries[k]
  }

  /** The sweep that starts a call, at most once a minute. */
  function Sweep(s: State, now: real): State {
    if now - s.swept >= MINUTE then s.(entries := Live(s.entries, now), swept := now) else s
  }

  /** The tokens `d` seconds bring at `rate` a minute: `d * rate / 60`. */
  function Gain(d: real, rate: nat): real { if rate == 0 then 0.0 else Gain(d, rate - 1) + d / MINUTE }

  lemma {:induction false} GainIs(d: real, rate: nat)
    ensures Gain(d, rate) == d * rate as real / MINUTE
  {
    if rate > 0 {
      GainIs(d, rate - 1);
      assert d * rate as real == d * (rate - 1) as real + d;
    }
  }

  lemma {:induction false} GainAdds(a: real, b: real, rate: nat)
    ensures Gain(a + b, rate) == Gain(a, rate) + Gain(b, rate)
  {
    if rate > 0 { GainAdds(a, b, rate - 1); }
  }

  lemma {:induction false} GainGrows(a: real, b: real, rate: nat)
    requires a <= b
    ensures Gain(a, rate) <= Gain(b, rate)
  {
    if rate > 0 { GainGrows(a, b, rate - 1); }
  }

  lemma {:induction false} GainNone(rate: nat)
    ensures Gain(0.0, rate) == 0.0
  {
    if rate > 0 { GainNone(rate - 1); }
  }

  /** A minute brings the whole rate. */
  lemma {:induction false} GainMinute(rate: nat)
    ensures Gain(MINUTE, rate) == rate as real
  {
    if rate > 0 { GainMinute(rate - 1); }
  }

  function Refilled(b: Bucket, rate: nat, now: real): real {
    var elapsed := if now - b.updated < 0.0 then 0.0 else now - b.updated;
    Least(rate as real, b.tokens + Gain(elapsed, rate))
  }

  function Wait(tokens: real, rate: nat): int
    requires rate > 0
  {
    var n := Ceiling((1.0 - tokens) * MINUTE / rate as real);
    if n > 1 then n else 1
  }

  /** One call on a bucket. */
  function Draw(b: Bucket, rate: nat, now: real): (Bucket, Answer)
    requires rate > 0
  {
    var tokens := Refilled(b, rate, now);
    if tokens >= 1.0 then (Bucket(tokens - 1.0, now, now), Answer(true, 0)) else (Bucket(tokens, now, now), Answer(false, Wait(tokens, rate)))
  }

  function Fresh(rate: nat, now: real): Bucket { Bucket(rate as real, now, now) }

  function Allow(s: State, c: Call): (State, Answer)
    requires c.rate > 0
  {
    var t := Sweep(s, c.now);
    if c.key !in t.entries && |t.entries| >= t.capacity then (t, FULL)
    else
      var d := Draw(if c.key in t.entries then t.entries[c.key] else Fresh(c.rate, c.now), c.rate, c.now);
      (t.(entries := t.entries[c.key := d.0]), d.1)
  }

  class Limiter {
    var entries: map<string, Bucket>
    var swept: real
    const capacity: nat

    constructor (capacity: nat, start: real)
      ensures View() == State(map[], capacity, start)
    {
      entries, swept, this.capacity := map[], start, capacity;
    }

    ghost function View(): State
      reads this
    {
      State(entries, capacity, swept)
    }

    method Expire(now: real)
      modifies this`entries
      ensures entries == Live(old(entries), now)
    {
      var todo := entries.Keys;
      while todo != {}
        invariant todo <= entries.Keys <= old(entries).Keys
        invariant forall k :: k in entries ==> entries[k] == old(entries)[k]
        invariant forall k :: k in old(entries) && k !in todo ==> (k in entries <==> now - old(entries)[k].lastSeen < IDLE)
        decreases |todo|
      {
        var k :| k in todo;
        if now - entries[k].lastSeen >= IDLE { entries := entries - {k}; }
        todo := todo - {k};
      }
    }

    method Request(key: string, rate: nat, now: real) returns (allowed: bool, retry: int)
      requires rate > 0
      modifies this`entries, this`swept
      ensures (View(), Answer(allowed, retry)) == Allow(old(View()), Call(key, rate, now))
    {
      if now - swept >= MINUTE {
        Expire(now);
        swept := now;
      }
      var b;
      if key in entries {
        b := entries[key];
      } else {
        if |entries| >= capacity { return false, 60; }
        b := Bucket(rate as real, now, now);
      }
      var elapsed := now - b.updated;
      if elapsed < 0.0 { elapsed := 0.0; }
      GainIs(elapsed, rate);
      var tokens := Least(rate as real, b.tokens + elapsed * rate as real / MINUTE);
      if tokens >= 1.0 {
        entries := entries[key := Bucket(tokens - 1.0, now, now)];
        return true, 0;
      }
      entries := entries[key := Bucket(tokens, now, now)];
      return false, Wait(tokens, rate);
    }
  }

  // ---------------------------------------------------------------- invariant

  /** Buckets hold a non-negative number of tokens and were last seen when last updated, not after `now`. */
  ghost predicate Ok(s: State, now: real) {
    && s.swept <= now && |s.entries| <= s.capacity
    && forall k :: k in s.entries ==> s.entries[k].tokens >= 0.0 && s.entries[k].updated == s.entries[k].lastSeen <= now
  }

  lemma FewerKeys(a: map<string, Bucket>, b: map<string, Bucket>)
    requires a.Keys <= b.Keys
    ensures |a| <= |b|
  {
    assert b.Keys == a.Keys + (b.Keys - a.Keys);
  }

  lemma OneMoreKey(a: map<string, Bucket>, k: string, x: Bucket)
    ensures |a[k := x]| == if k in a then |a| else |a| + 1
  {
    assert a[k := x].Keys == a.Keys + {k};
  }

  /** The number of entries never exceeds the capacity. */
  lemma AllowOk(s: State, c: Call, last: real)
    requires c.rate > 0 && Ok(s, last) && last <= c.now
    ensures Ok(Allow(s, c).0, c.now)
  {
    FewerKeys(Live(s.entries, c.now), s.entries);
    var t := Sweep(s, c.now);
    if c.key in t.entries || |t.entries| < t.capacity {
      OneMoreKey(t.entries, c.key, Allow(s, c).0.entries[c.key]);
      RefillPositive(if c.key in t.entries then t.entries[c.key] else Fresh(c.rate, c.now), c.rate, c.now);
    }
  }

  lemma RefillPositive(b: Bucket, rate: nat, now: real)
    requires b.tokens >= 0.0
    ensures 0.0 <= Refilled(b, rate, now) <= rate as real
  {
    GainNone(rate);
    if b.updated <= now { GainGrows(0.0, now - b.updated, rate); }
  }

  // ---------------------------------------------------------------- eviction is invisible

  /** The limiter without eviction or capacity. */
  function Reference(r: map<string, Bucket>, c: Call): (map<string, Bucket>, Answer)
    requires c.rate > 0
  {
    var d := Draw(if c.key in r then r[c.key] else Fresh(c.rate, c.now), c.rate, c.now);
    (r[c.key := d.0], d.1)
  }

  /** The reference knows every bucket the limiter has; those it evicted have been idle for ten minutes. */
  ghost predicate Same(s: State, r: map<string, Bucket>) {
    && (forall k :: k in s.entries ==> k in r && r[k] == s.entries[k])
    && (forall k :: k in r && k !in s.entries ==> r[k].tokens >= 0.0 && r[k].updated + IDLE <= s.swept)
  }

  /** A bucket idle for ten minutes is full again. */
  lemma IdleIsFull(b: Bucket, rate: nat, now: real)
    requires b.tokens >= 0.0 && now - b.updated >= IDLE
    ensures Refilled(b, rate, now) == rate as real == Refilled(Fresh(rate, now), rate, now)
  {
    GainMinute(rate);
    GainNone(rate);
    GainGrows(MINUTE, now - b.updated, rate);
  }

  lemma SweepSame(s: State, r: map<string, Bucket>, now: real, last: real)
    requires Same(s, r) && Ok(s, last) && last <= now
    ensures Same(Sweep(s, now), r)
  {}

  predicate Rejected(s: State, c: Call) {
    var t := Sweep(s, c.now);
    c.key !in t.entries && |t.entries| >= t.capacity
  }

  /** Except when it refuses a new key for lack of capacity, the limiter answers as the reference does. */
  lemma CallAgrees(s: State, r: map<string, Bucket>, c: Call, last: real)
    requires c.rate > 0 && Same(s, r) && Ok(s, last) && last <= c.now
    ensures Rejected(s, c) ==> Allow(s, c).1 == FULL && Same(Allow(s, c).0, r)
    ensures !Rejected(s, c) ==> Allow(s, c).1 == Reference(r, c).1 && Same(Allow(s, c).0, Reference(r, c).0)
  {
    SweepSame(s, r, c.now, last);
    var t := Sweep(s, c.now);
    if c.key in r && c.key !in t.entries { IdleIsFull(r[c.key], c.rate, c.now); }
  }

  /** Calls in order of time, after `last`. */
  ghost predicate Timed(cs: seq<Call>, last: real) {
    && (forall i :: 0 <= i < |cs| ==> cs[i].rate > 0 && cs[i].now >= last)
    && (forall i, j :: 0 <= i < j < |cs| ==> cs[i].now <= cs[j].now)
  }

  function Answers(s: State, cs: seq<Call>): seq<Answer>
    requires forall c :: c in cs ==> c.rate > 0
    decreases |cs|
  {
    if cs == [] then [] else [Allow(s, cs[0]).1] + Answers(Allow(s, cs[0]).0, cs[1..])
  }

  /** The reference is asked exactly the calls that were not rejected for capacity. */
  function Expected(s: State, r: map<string, Bucket>, cs: seq<Call>): seq<Answer>
    requires forall c :: c in cs ==> c.rate > 0
    decreases |cs|
  {
    if cs == [] then []
    else if Rejected(s, cs[0]) then [FULL] + Expected(Allow(s, cs[0]).0, r, cs[1..])
    else [Reference(r, cs[0]).1] + Expected(Allow(s, cs[0]).0, Reference(r, cs[0]).0, cs[1..])
  }

  lemma {:induction false} EvictionIsInvisible(s: State, r: map<string, Bucket>, cs: seq<Call>, last: real)
    requires Same(s, r) && Ok(s, last) && Timed(cs, last)
    ensures Answers(s, cs) == Expected(s, r, cs)
    decreases |cs|
  {
    if cs != [] {
      CallAgrees(s, r, cs[0], last);
      AllowOk(s, cs[0], last);
      EvictionIsInvisible(Allow(s, cs[0]).0, if Rejected(s, cs[0]) then r else Reference(r, cs[0]).0, cs[1..], cs[0].now);
    }
  }

  // ---------------------------------------------------------------- the window bound

  /** The tokens a call with `key` would find. */
  function Level(s: State, key: string, rate: nat, now: real): real {
    if key in s.entries then Refilled(s.entries[key], rate, now) else rate as real
  }

  lemma LevelRises(b: Bucket, rate: nat, now: real, later: real)
    requires b.updated <= now <= later
    ensures Refilled(b, rate, later) <= Refilled(b, rate, now) + Gain(later - now, rate)
  {
    GainAdds(now - b.updated, later - now, rate);
    GainNone(rate);
    GainGrows(0.0, later - now, rate);
  }

  /** A sweep forgets only full buckets. */
  lemma SweepLevel(s: State, key: string, rate: nat, now: real, last: real)
    requires Ok(s, last) && last <= now
    ensures Level(Sweep(s, now), key, rate, now) == Level(s, key, rate, now)
  {
    if key in s.entries && key !in Sweep(s, now).entries { IdleIsFull(s.entries[key], rate, now); }
  }

  function Spent(a: Answer): real { if a.allowed then 1.0 else 0.0 }

  /** A call takes a token from its own bucket if it passes, and leaves the others alone. */
  lemma CallLevel(s: State, c: Call, key: string, rate: nat, last: real)
    requires c.rate > 0 && Ok(s, last) && last <= c.now && (c.key == key ==> c.rate == rate)
    ensures Level(Allow(s, c).0, key, rate, c.now) == Level(s, key, rate, c.now) - if c.key == key then Spent(Allow(s, c).1) else 0.0
    ensures 0.0 <= Level(Allow(s, c).0, key, rate, c.now) <= rate as real
  {
    SweepLevel(s, key, rate, c.now, last);
    AllowOk(s, c, last);
    GainNone(c.rate);
    RefillPositive(if key in s.entries then s.entries[key] else Fresh(rate, c.now), rate, c.now);
    var n := Allow(s, c).0;
    if key in n.entries { RefillPositive(n.entries[key], rate, c.now); }
  }

  function Passes(s: State, cs: seq<Call>, key: string): real
    requires forall c :: c in cs ==> c.rate > 0
    decreases |cs|
  {
    if cs == [] then 0.0
    else (if cs[0].key == key then Spent(Allow(s, cs[0]).1) else 0.0) + Passes(Allow(s, cs[0]).0, cs[1..], key)
  }

  ghost predicate OneRate(cs: seq<Call>, key: string, rate: nat) { forall c :: c in cs && c.key == key ==> c.rate == rate }

  lemma TimedRest(cs: seq<Call>, last: real, key: string, rate: nat)
    requires cs != [] && Timed(cs, last) && OneRate(cs, key, rate)
    ensures Timed(cs[1..], cs[0].now) && OneRate(cs[1..], key, rate) && (cs[0].key == key ==> cs[0].rate == rate)
    ensures |cs| > 1 ==> cs[1..][|cs| - 2] == cs[|cs| - 1]
  {}

  lemma LevelLater(s: State, key: string, rate: nat, now: real, later: real)
    requires Ok(s, now) && now <= later
    ensures Level(s, key, rate, later) <= Level(s, key, rate, now) + Gain(later - now, rate)
  {
    GainNone(rate);
    GainGrows(0.0, later - now, rate);
    if key in s.entries { LevelRises(s.entries[key], rate, now, later); }
  }

  lemma {:induction false} Budget(s: State, cs: seq<Call>, key: string, rate: nat, now: real)
    requires Ok(s, now) && Timed(cs, now) && OneRate(cs, key, rate)
    ensures var last := if cs == [] then now else cs[|cs| - 1].now;
            Passes(s, cs, key) <= Level(s, key, rate, now) + Gain(last - now, rate)
    decreases |cs|
  {
    if cs == [] {
      GainNone(rate);
      if key in s.entries { RefillPositive(s.entries[key], rate, now); }
    } else {
      var c, last := cs[0], cs[|cs| - 1].now;
      TimedRest(cs, now, key, rate);
      AllowOk(s, c, now);
      CallLevel(s, c, key, rate, now);
      LevelLater(s, key, rate, now, c.now);
      Budget(Allow(s, c).0, cs[1..], key, rate, c.now);
      GainAdds(c.now - now, last - c.now, rate);
      assert last - now == (c.now - now) + (last - c.now);
      GainNone(rate);
    }
  }

  lemma {:induction false} WindowGain(width: real, rate: nat)
    ensures rate as real + Gain(width, rate) == rate as real * (1.0 + width / MINUTE)
  {
    if rate > 0 {
      WindowGain(width, rate - 1);
      assert rate as real * (1.0 + width / MINUTE) == (rate - 1) as real * (1.0 + width / MINUTE) + (1.0 + width / MINUTE);
    }
  }

  /** At most rate * (1 + T / 60) requests of one key pass in any window of T seconds, whatever other keys do. */
  lemma WindowBound(s: State, cs: seq<Call>, key: string, rate: nat, start: real, width: real)
    requires Ok(s, start) && Timed(cs, start) && OneRate(cs, key, rate) && width >= 0.0
    requires forall c :: c in cs ==> c.now <= start + width
    ensures Passes(s, cs, key) <= rate as real * (1.0 + width / MINUTE)
  {
    Budget(s, cs, key, rate, start);
    var last := if cs == [] then start else cs[|cs| - 1].now;
    if key in s.entries { RefillPositive(s.entries[key], rate, start); }
    GainGrows(last - start, width, rate);
    WindowGain(width, rate);
  }

  // ---------------------------------------------------------------- bursts

  /** The bucket of a key is full when it is new, or a minute after its last call. */
  lemma FullAgain(s: State, key: string, rate: nat, now: real, last: real)
    requires Ok(s, last) && last <= now && (key in s.entries ==> now - s.entries[key].updated >= MINUTE)
    ensures Level(s, key, rate, now) == rate as real
  {
    if key in s.entries {
      GainMinute(rate);
      GainNone(rate);
      GainGrows(MINUTE, now - s.entries[key].updated, rate);
    }
  }

  lemma PassesIffLevel(s: State, c: Call, last: real)
    requires c.rate > 0 && Ok(s, last) && last <= c.now && !Rejected(s, c)
    ensures Allow(s, c).1.allowed <==> Level(s, c.key, c.rate, c.now) >= 1.0
    ensures !Rejected(Allow(s, c).0, c)
  {
    SweepLevel(s, c.key, c.rate, c.now, last);
    GainNone(c.rate);
  }

  predicate Alike(cs: seq<Call>, c: Call) { forall i :: 0 <= i < |cs| ==> cs[i] == c }

  /** Of equal calls at one moment exactly as many pass as the bucket holds whole tokens, and those are the first. */
  lemma {:induction false} FirstPass(s: State, c: Call, cs: seq<Call>, last: real)
    requires c.rate > 0 && Ok(s, last) && last <= c.now && !Rejected(s, c) && Alike(cs, c)
    ensures |Answers(s, cs)| == |cs|
    ensures forall i :: 0 <= i < |cs| ==> (Answers(s, cs)[i].allowed <==> i < Level(s, c.key, c.rate, c.now).Floor)
    decreases |cs|
  {
    if cs != [] {
      var t := Allow(s, c).0;
      assert cs[0] == c && Answers(s, cs) == [Allow(s, c).1] + Answers(t, cs[1..]);
      PassesIffLevel(s, c, last);
      AllowOk(s, c, last);
      CallLevel(s, c, c.key, c.rate, last);
      FirstPass(t, c, cs[1..], c.now);
    }
  }

  /** The keys a call finds: once a minute those that made no call for ten minutes are dropped. */
  ghost function KeysAt(s: State, now: real): set<string> {
    if now - s.swept >= 60.0 then set k | k in s.entries && now - s.entries[k].lastSeen < 600.0 else s.entries.Keys
  }

  /** A call is refused for lack of capacity exactly if its key is new and no place is left; that is answered like any refusal, with
      a minute to wait, and costs no token. */
  lemma RejectedExactly(s: State, c: Call)
    requires c.rate > 0
    ensures Rejected(s, c) <==> c.key !in KeysAt(s, c.now) && |KeysAt(s, c.now)| >= s.capacity
    ensures Rejected(s, c) ==> Allow(s, c).1 == Answer(false, 60) && Allow(s, c).0.entries.Keys == KeysAt(s, c.now)
  {
    assert Sweep(s, c.now).entries.Keys == KeysAt(s, c.now);
  }

  /** A key that is new and finds room, or has not called for a minute, can make `rate` calls at once: exactly the first `rate`
      of them pass. */
  lemma Burst(s: State, c: Call, cs: seq<Call>, last: real)
    requires c.rate > 0 && Ok(s, last) && last <= c.now && Alike(cs, c)
    requires c.key in KeysAt(s, c.now) || |KeysAt(s, c.now)| < s.capacity
    requires c.key in s.entries ==> c.now - s.entries[c.key].updated >= 60.0
    ensures |Answers(s, cs)| == |cs|
    ensures forall i :: 0 <= i < |cs| ==> (Answers(s, cs)[i].allowed <==> i < c.rate)
  {
    FullAgain(s, c.key, c.rate, c.now, last);
    RejectedExactly(s, c);
    FirstPass(s, c, cs, last);
  }

  // ---------------------------------------------------------------- Retry-After

  lemma RetryBucket(tokens: real, rate: nat, n: int)
    requires 0.0 <= tokens < 1.0 && rate > 0 && n >= 1
    ensures tokens + Gain(n as real, rate) >= 1.0 <==> n >= Wait(tokens, rate)
    ensures 1 <= Wait(tokens, rate) <= 60
  {
    var need := (1.0 - tokens) * MINUTE / rate as real;
    GainIs(n as real, rate);
    Divides(n as real, (1.0 - tokens) * MINUTE, rate as real);
    Divides(60.0, (1.0 - tokens) * MINUTE, rate as real);
    CeilingIs(need, n);
    CeilingIs(need, 60);
  }

  lemma CeilingIs(x: real, n: int)
    ensures n as real >= x <==> n >= Ceiling(x)
  {}

  lemma Divides(x: real, y: real, r: real)
    requires r > 0.0
    ensures x >= y / r <==> x * r >= y
  {
    var q := y / r;
    assert q * r == y;
    if x >= q { assert (x - q) * r >= 0.0; } else { assert (q - x) * r > 0.0; }
  }

  /** A refused call of a known key is told to wait 1 to 60 seconds, and that is the least whole number of seconds after
      which the next call of that key passes. */
  lemma RetryIsLeast(s: State, c: Call, last: real, n: int)
    requires c.rate > 0 && Ok(s, last) && last <= c.now && !Rejected(s, c) && !Allow(s, c).1.allowed && 1 <= n <= 60
    ensures 1 <= Allow(s, c).1.retry <= 60
    ensures Allow(Allow(s, c).0, c.(now := c.now + n as real)).1.allowed <==> n >= Allow(s, c).1.retry
  {
    AllowOk(s, c, last);
    var t, later := Allow(s, c).0, c.now + n as real;
    var b := t.entries[c.key];
    assert b.updated == c.now && b.lastSeen == c.now;
    RetryBucket(b.tokens, c.rate, n);
    assert Sweep(t, later).entries[c.key] == b;
  }
}
