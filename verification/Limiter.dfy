/** The keyed token-bucket limiter of internal/ingest/ratelimit.go.

    Times are integer nanoseconds and tokens are reals. `Limiter` is the code:
    a map of heap-allocated buckets that `Allow` updates and `Sweep` deletes
    from in a loop. The functions above it give each call's meaning on values,
    and the lemmas at the end speak about whole runs of calls. */
module Limiter {
  import opened Bags

  type Key = string

  datatype Settings = Settings(rate: real, burst: real, max: int)

  /** What one bucket holds. */
  datatype Level = Level(tokens: real, last: int)

  ghost predicate Configured(s: Settings) {
    s.rate > 0.0 && s.burst >= 1.0
  }

  /** The tokens that `dt` nanoseconds earn. */
  function Accrued(s: Settings, dt: int): real {
    dt as real / 1000000000.0 * s.rate
  }

  /** How long `Sweep` lets a bucket sit, truncated to whole nanoseconds. */
  function Idle(s: Settings): int
    requires Configured(s)
  {
    (1000000000.0 * (s.burst / s.rate)).Floor
  }

  function Refilled(s: Settings, b: Level, now: int): Level {
    if now - b.last > 0 then
      var t := b.tokens + Accrued(s, now - b.last);
      Level(if t > s.burst then s.burst else t, now)
    else b
  }

  function Drawn(s: Settings, b: Level, now: int): Level {
    var r := Refilled(s, b, now);
    if r.tokens < 1.0 then r else r.(tokens := r.tokens - 1.0)
  }

  function Granted(s: Settings, m: map<Key, Level>, key: Key, now: int): bool {
    if key !in m then |m| < s.max else Refilled(s, m[key], now).tokens >= 1.0
  }

  function AfterAllow(s: Settings, m: map<Key, Level>, key: Key, now: int): map<Key, Level> {
    if key !in m then
      if |m| < s.max then m[key := Level(s.burst - 1.0, now)] else m
    else
      m[key := Drawn(s, m[key], now)]
  }

  function AfterSweep(s: Settings, m: map<Key, Level>, now: int): map<Key, Level>
    requires Configured(s)
  {
    map k | k in m && now - m[k].last <= Idle(s) :: m[k]
  }

  class Bucket {
    var tokens: real
    var last: int

    constructor (tokens: real, last: int)
      ensures this.tokens == tokens && this.last == last
    {
      this.tokens := tokens;
      this.last := last;
    }

    /** Adds what was earned since the last call, then takes one token if there is one. */
    method Take(settings: Settings, now: int) returns (ok: bool)
      modifies this
      ensures ok == (Refilled(settings, old(Level(tokens, last)), now).tokens >= 1.0)
      ensures Level(tokens, last) == Drawn(settings, old(Level(tokens, last)), now)
    {
      var elapsed := now - last;
      if elapsed > 0 {
        tokens := tokens + Accrued(settings, elapsed);
        if tokens > settings.burst {
          tokens := settings.burst;
        }
        last := now;
      }
      if tokens < 1.0 {
        return false;
      }
      tokens := tokens - 1.0;
      return true;
    }
  }

  class Limiter {
    const settings: Settings
    var buckets: map<Key, Bucket>

    ghost var Levels: map<Key, Level>  // what the buckets hold
    ghost var Repr: set<Bucket>

    ghost predicate Valid()
      reads this, Repr
    {
      && Configured(settings)
      && Levels.Keys == buckets.Keys
      && (forall k :: k in buckets ==>
            && buckets[k] in Repr
            && Levels[k] == Level(buckets[k].tokens, buckets[k].last))
      && (forall j, k :: j in buckets && k in buckets && j != k ==> buckets[j] != buckets[k])
    }

    constructor (perMin: int, maxKeys: int)
      ensures Valid() && fresh(Repr) && Levels == map[]
      ensures settings.burst == (if perMin < 1 then 1 else perMin) as real
      ensures settings.rate * 60.0 == settings.burst
      ensures settings.max == maxKeys
    {
      var p := if perMin < 1 then 1 else perMin;
      settings := Settings(p as real / 60.0, p as real, maxKeys);
      buckets, Levels, Repr := map[], map[], {};
    }

    method Allow(key: Key, now: int) returns (ok: bool)
      requires Valid()
      modifies this, Repr
      ensures Valid() && fresh(Repr - old(Repr))
      ensures ok == Granted(settings, old(Levels), key, now)
      ensures Levels == AfterAllow(settings, old(Levels), key, now)
    {
      assert |Levels| == |Levels.Keys| == |buckets.Keys| == |buckets|;
      if key in buckets {
        ok := buckets[key].Take(settings, now);
      } else if |buckets| >= settings.max {
        // The map itself is bounded: once full, new keys are refused.
        ok := false;
      } else {
        var b := new Bucket(settings.burst - 1.0, now);
        buckets, Repr := buckets[key := b], Repr + {b};
        ok := true;
      }
      Levels := AfterAllow(settings, Levels, key, now);
    }

    method Sweep(now: int)
      requires Valid()
      modifies this
      ensures Valid() && Repr == old(Repr)
      ensures Levels == AfterSweep(settings, old(Levels), now)
    {
      var idle := Idle(settings);
      var pending := buckets.Keys;
      while pending != {}
        invariant Repr == old(Repr) && Levels == old(Levels)
        invariant pending <= buckets.Keys <= Levels.Keys
        invariant forall k :: k in buckets ==> buckets[k] == old(buckets)[k]
        invariant forall k :: k in Levels ==> (k in buckets <==> k in pending || now - Levels[k].last <= idle)
        decreases pending
      {
        var k :| k in pending;
        pending := pending - {k};
        if now - buckets[k].last > idle {
          buckets := buckets - {k};
        }
      }
      Levels := AfterSweep(settings, Levels, now);
    }
  }

  // ---------------------------------------------------------------------
  // Whole runs
  // ---------------------------------------------------------------------

  datatype Op = Allow(key: Key, now: int) | Sweep(now: int)

  function After(s: Settings, m: map<Key, Level>, op: Op): map<Key, Level>
    requires Configured(s)
  {
    match op
    case Allow(key, now) => AfterAllow(s, m, key, now)
    case Sweep(now) => AfterSweep(s, m, now)
  }

  function Run(s: Settings, m: map<Key, Level>, ops: seq<Op>): map<Key, Level>
    requires Configured(s)
    decreases |ops|
  {
    if ops == [] then m else Run(s, After(s, m, ops[0]), ops[1..])
  }

  /** The answers the `Allow` calls of a run return, in order. */
  function Answers(s: Settings, m: map<Key, Level>, ops: seq<Op>): seq<bool>
    requires Configured(s)
    decreases |ops|
  {
    if ops == [] then []
    else
      (if ops[0].Allow? then [Granted(s, m, ops[0].key, ops[0].now)] else [])
      + Answers(s, After(s, m, ops[0]), ops[1..])
  }

  /** How many of a run's `Allow` calls for `key` are granted. */
  function Grants(s: Settings, m: map<Key, Level>, ops: seq<Op>, key: Key): nat
    requires Configured(s)
    decreases |ops|
  {
    if ops == [] then 0
    else
      (if ops[0].Allow? && ops[0].key == key && Granted(s, m, key, ops[0].now) then 1 else 0)
      + Grants(s, After(s, m, ops[0]), ops[1..], key)
  }

  function WithoutSweeps(ops: seq<Op>): seq<Op> {
    if ops == [] then []
    else (if ops[0].Sweep? then [] else [ops[0]]) + WithoutSweeps(ops[1..])
  }

  /** The clock reads at least `since` at the start and never goes back. */
  ghost predicate InOrder(since: int, ops: seq<Op>)
    decreases |ops|
  {
    ops != [] ==> since <= ops[0].now && InOrder(ops[0].now, ops[1..])
  }

  /** A refusal for lack of room finds every tracked bucket in use: none has
      been idle for so long that a sweep would drop it. */
  ghost predicate BusyIfRefused(s: Settings, m: map<Key, Level>, op: Op)
    requires Configured(s)
  {
    op.Allow? && op.key !in m && |m| >= s.max ==> forall k :: k in m ==> op.now - m[k].last <= Idle(s)
  }

  /** Every refusal of the run for lack of room does. */
  ghost predicate BusyWhenFull(s: Settings, m: map<Key, Level>, ops: seq<Op>)
    requires Configured(s)
    decreases |ops|
  {
    ops != [] ==> BusyIfRefused(s, m, ops[0]) && BusyWhenFull(s, After(s, m, ops[0]), ops[1..])
  }

  /** Every bucket holds between nothing and a full burst and is not from the future. */
  ghost predicate Sane(s: Settings, m: map<Key, Level>, now: int) {
    forall k :: k in m ==> 0.0 <= m[k].tokens <= s.burst && m[k].last <= now
  }

  lemma AccruedAdds(s: Settings, a: int, b: int)
    requires Configured(s) && a >= 0 && b >= 0
    ensures Accrued(s, a + b) == Accrued(s, a) + Accrued(s, b)
    ensures Accrued(s, a) >= 0.0
  {
    var x, y := a as real / 1000000000.0, b as real / 1000000000.0;
    assert (a + b) as real / 1000000000.0 == x + y;
    assert (x + y) * s.rate == x * s.rate + y * s.rate;
  }

  /** A bucket that `Sweep` may drop has had the time to fill up entirely. */
  lemma IdleBucketsAreFull(s: Settings, dt: int)
    requires Configured(s) && dt > Idle(s)
    ensures dt > 0 && Accrued(s, dt) >= s.burst
  {
    var span := s.burst / s.rate;
    assert span > 0.0;
    assert dt as real > 1000000000.0 * span;
    var seconds := dt as real / 1000000000.0;
    assert seconds > span;
    assert seconds * s.rate >= span * s.rate;
    assert span * s.rate == s.burst;
  }

  lemma StepKeepsSane(s: Settings, m: map<Key, Level>, op: Op, since: int)
    requires Configured(s) && Sane(s, m, since) && since <= op.now
    ensures Sane(s, After(s, m, op), op.now)
  {
    if op.Allow? && op.key in m && op.now - m[op.key].last > 0 {
      AccruedAdds(s, op.now - m[op.key].last, 0);
    }
  }

  /** Tokens stay within 0..burst on every run. */
  lemma {:induction false} TokensStayInRange(s: Settings, m: map<Key, Level>, ops: seq<Op>, since: int)
    requires Configured(s) && Sane(s, m, since) && InOrder(since, ops)
    ensures Sane(s, Run(s, m, ops), if ops == [] then since else ops[|ops| - 1].now)
    decreases |ops|
  {
    if ops != [] {
      StepKeepsSane(s, m, ops[0], since);
      TokensStayInRange(s, After(s, m, ops[0]), ops[1..], ops[0].now);
    }
  }

  // ---------------------------------------------------------------------
  // Sweeping cannot be observed
  // ---------------------------------------------------------------------

  /** `swept` lacks only buckets of `kept` that have sat long enough to be dropped. */
  ghost predicate SameButIdle(s: Settings, swept: map<Key, Level>, kept: map<Key, Level>, now: int)
    requires Configured(s)
  {
    && (forall k :: k in swept ==> k in kept && swept[k] == kept[k])
    && (forall k :: k in kept && k !in swept ==> now - kept[k].last > Idle(s))
  }

  ghost predicate Fits(s: Settings, m: map<Key, Level>) {
    |m| <= s.max || m == map[]
  }

  lemma StepFits(s: Settings, m: map<Key, Level>, op: Op)
    requires Configured(s) && op.Allow? && Fits(s, m)
    ensures Fits(s, After(s, m, op))
  {
    if op.key in m {
      assert After(s, m, op).Keys == m.Keys;
      assert |After(s, m, op)| == |After(s, m, op).Keys| && |m| == |m.Keys|;
    }
  }

  lemma FewerTracked(swept: map<Key, Level>, kept: map<Key, Level>)
    requires swept.Keys <= kept.Keys
    ensures |swept| <= |kept|
    ensures |swept| == |kept| ==> swept.Keys == kept.Keys
  {
    SubsetIsNoLarger(swept.Keys, kept.Keys);
    assert |swept| == |swept.Keys| && |kept| == |kept.Keys|;
  }

  /** A bucket that may be dropped draws like a fresh one. */
  lemma IdleBucketIsFresh(s: Settings, b: Level, now: int)
    requires Configured(s) && 0.0 <= b.tokens && now - b.last > Idle(s)
    ensures Refilled(s, b, now) == Level(s.burst, now)
    ensures Drawn(s, b, now) == Level(s.burst - 1.0, now)
  {
    IdleBucketsAreFull(s, now - b.last);
  }

  lemma KnownKeyKeepsSame(s: Settings, swept: map<Key, Level>, kept: map<Key, Level>, key: Key, now: int)
    requires Configured(s) && SameButIdle(s, swept, kept, now) && key in swept
    ensures Granted(s, swept, key, now) == Granted(s, kept, key, now)
    ensures SameButIdle(s, AfterAllow(s, swept, key, now), AfterAllow(s, kept, key, now), now)
  {
  }

  lemma SweptKeyKeepsSame(s: Settings, swept: map<Key, Level>, kept: map<Key, Level>, key: Key, now: int)
    requires Configured(s) && Sane(s, kept, now) && SameButIdle(s, swept, kept, now)
    requires Fits(s, kept) && key in kept && key !in swept
    ensures Granted(s, swept, key, now) == Granted(s, kept, key, now)
    ensures SameButIdle(s, AfterAllow(s, swept, key, now), AfterAllow(s, kept, key, now), now)
  {
    FewerTracked(swept, kept);
    IdleBucketIsFresh(s, kept[key], now);
  }

  lemma NewKeyKeepsSame(s: Settings, swept: map<Key, Level>, kept: map<Key, Level>, key: Key, now: int)
    requires Configured(s) && SameButIdle(s, swept, kept, now)
    requires key !in kept && BusyIfRefused(s, kept, Allow(key, now))
    ensures Granted(s, swept, key, now) == Granted(s, kept, key, now)
    ensures SameButIdle(s, AfterAllow(s, swept, key, now), AfterAllow(s, kept, key, now), now)
  {
    FewerTracked(swept, kept);
    if |kept| >= s.max {
      assert swept == kept;
    }
  }

  /** With or without buckets that may be dropped, a call answers the same and
      leaves the same but for such buckets, unless it is refused for lack of
      room while there are such buckets. */
  lemma AllowKeepsSameButIdle(s: Settings, swept: map<Key, Level>, kept: map<Key, Level>, key: Key, now: int)
    requires Configured(s) && Sane(s, kept, now) && SameButIdle(s, swept, kept, now)
    requires Fits(s, kept) && BusyIfRefused(s, kept, Allow(key, now))
    ensures Granted(s, swept, key, now) == Granted(s, kept, key, now)
    ensures SameButIdle(s, AfterAllow(s, swept, key, now), AfterAllow(s, kept, key, now), now)
  {
    if key in swept {
      KnownKeyKeepsSame(s, swept, kept, key, now);
    } else if key in kept {
      SweptKeyKeepsSame(s, swept, kept, key, now);
    } else {
      NewKeyKeepsSame(s, swept, kept, key, now);
    }
  }

  lemma SweepKeepsSameButIdle(s: Settings, swept: map<Key, Level>, kept: map<Key, Level>, now: int)
    requires Configured(s) && SameButIdle(s, swept, kept, now)
    ensures SameButIdle(s, AfterSweep(s, swept, now), kept, now)
  {
  }

  lemma {:induction false} SweepsAreInvisibleFrom(
    s: Settings, swept: map<Key, Level>, kept: map<Key, Level>, ops: seq<Op>, since: int)
    requires Configured(s) && Sane(s, kept, since) && SameButIdle(s, swept, kept, since) && Fits(s, kept)
    requires InOrder(since, ops) && BusyWhenFull(s, kept, WithoutSweeps(ops))
    ensures Answers(s, swept, ops) == Answers(s, kept, WithoutSweeps(ops))
    decreases |ops|
  {
    if ops != [] {
      var op, rest := ops[0], ops[1..];
      if op.Allow? {
        assert WithoutSweeps(ops) == [op] + WithoutSweeps(rest);
        assert WithoutSweeps(ops)[1..] == WithoutSweeps(rest);
        StepKeepsSane(s, kept, op, since);
        StepFits(s, kept, op);
        AllowKeepsSameButIdle(s, swept, kept, op.key, op.now);
        SweepsAreInvisibleFrom(s, After(s, swept, op), After(s, kept, op), rest, op.now);
      } else {
        assert WithoutSweeps(ops) == WithoutSweeps(rest);
        SweepKeepsSameButIdle(s, swept, kept, op.now);
        SweepsAreInvisibleFrom(s, After(s, swept, op), kept, rest, op.now);
      }
    }
  }

  /** Sweeping drops only what a fresh bucket would replace exactly: with a
      clock that does not go back, sweeps placed anywhere change no answer as
      long as the unswept run refuses nobody for lack of room while it tracks a
      bucket that a sweep would drop. */
  lemma SweepsAreInvisible(s: Settings, ops: seq<Op>, since: int)
    requires Configured(s) && InOrder(since, ops)
    requires BusyWhenFull(s, map[], WithoutSweeps(ops))
    ensures Answers(s, map[], ops) == Answers(s, map[], WithoutSweeps(ops))
  {
    SweepsAreInvisibleFrom(s, map[], map[], ops, since);
  }

  /** One sweep just before it turns a refusal for lack of room into a grant if
      there is a bucket to drop. */
  lemma SweepFlipsARefusal(s: Settings, m: map<Key, Level>, key: Key, now: int)
    requires Configured(s) && Fits(s, m) && !BusyIfRefused(s, m, Allow(key, now))
    ensures !Granted(s, m, key, now)
    ensures Granted(s, AfterSweep(s, m, now), key, now)
  {
    var k :| k in m && now - m[k].last > Idle(s);
    assert k !in AfterSweep(s, m, now);
    FewerTracked(AfterSweep(s, m, now), m);
  }

  lemma SweepFirst(s: Settings, m: map<Key, Level>, ops: seq<Op>, since: int)
    requires Configured(s) && ops != [] && ops[0].Allow? && InOrder(since, ops)
    ensures var swept := [Sweep(ops[0].now)] + ops;
            && WithoutSweeps(swept) == WithoutSweeps(ops)
            && Answers(s, m, swept) == Answers(s, AfterSweep(s, m, ops[0].now), ops)
            && InOrder(since, swept)
  {
    assert ([Sweep(ops[0].now)] + ops)[1..] == ops;
  }

  lemma OneCallFirst(s: Settings, m: map<Key, Level>, op: Op, rest: seq<Op>)
    requires Configured(s) && op.Allow? && InOrder(op.now, rest)
    ensures WithoutSweeps([op] + rest) == [op] + WithoutSweeps(rest)
    ensures Answers(s, m, [op] + rest) == [Granted(s, m, op.key, op.now)] + Answers(s, After(s, m, op), rest)
    ensures InOrder(op.now, [op] + rest)
  {
    var ops := [op] + rest;
    assert ops[0] == op && ops[1..] == rest;
  }

  lemma AnswersDiffer(x: bool, y: bool, a: seq<bool>, b: seq<bool>)
    requires x != y || a != b
    ensures [x] + a != [y] + b
  {
    assert ([x] + a)[0] == x && ([y] + b)[0] == y;
    assert ([x] + a)[1..] == a && ([y] + b)[1..] == b;
  }

  /** Where to sweep to be seen. */
  lemma {:induction false} PlaceASweep(s: Settings, m: map<Key, Level>, ops: seq<Op>, since: int)
    returns (swept: seq<Op>)
    requires Configured(s) && Fits(s, m) && InOrder(since, ops) && WithoutSweeps(ops) == ops
    requires !BusyWhenFull(s, m, ops)
    ensures WithoutSweeps(swept) == ops && InOrder(since, swept)
    ensures Answers(s, m, swept) != Answers(s, m, ops)
    decreases |ops|
  {
    var op, rest := ops[0], ops[1..];
    SweepFreeTail(ops);
    assert ops == [op] + rest;
    OneCallFirst(s, m, op, rest);
    if BusyIfRefused(s, m, op) {
      StepFits(s, m, op);
      var tail := PlaceASweep(s, After(s, m, op), rest, op.now);
      OneCallFirst(s, m, op, tail);
      swept := [op] + tail;
      AnswersDiffer(
        Granted(s, m, op.key, op.now), Granted(s, m, op.key, op.now),
        Answers(s, After(s, m, op), tail), Answers(s, After(s, m, op), rest));
    } else {
      SweepFirst(s, m, ops, since);
      SweepFlipsARefusal(s, m, op.key, op.now);
      var m' := AfterSweep(s, m, op.now);
      OneCallFirst(s, m', op, rest);
      swept := [Sweep(op.now)] + ops;
      AnswersDiffer(true, false, Answers(s, After(s, m', op), rest), Answers(s, After(s, m, op), rest));
    }
  }

  lemma SweepFreeTail(ops: seq<Op>)
    requires ops != [] && WithoutSweeps(ops) == ops
    ensures ops[0].Allow? && WithoutSweeps(ops[1..]) == ops[1..]
  {
    FewerWithoutSweeps(ops[1..]);
    if ops[0].Allow? {
      assert WithoutSweeps(ops) == [ops[0]] + WithoutSweeps(ops[1..]);
      assert ([ops[0]] + WithoutSweeps(ops[1..]))[1..] == WithoutSweeps(ops[1..]);
    }
  }

  lemma {:induction false} FewerWithoutSweeps(ops: seq<Op>)
    ensures |WithoutSweeps(ops)| <= |ops|
  {
    if ops != [] {
      FewerWithoutSweeps(ops[1..]);
    }
  }

  /** Exactly when sweeping cannot be seen: no sweeps that are put into a run of
      calls, wherever and however many, change an answer if and only if the run
      refuses nobody for lack of room while it tracks a bucket idle long enough
      to be dropped. */
  lemma SweepsAreInvisibleIff(s: Settings, ops: seq<Op>, since: int)
    requires Configured(s) && InOrder(since, ops) && WithoutSweeps(ops) == ops
    ensures BusyWhenFull(s, map[], ops)
            <==> forall swept :: WithoutSweeps(swept) == ops && InOrder(since, swept) ==>
                   Answers(s, map[], swept) == Answers(s, map[], ops)
  {
    if BusyWhenFull(s, map[], ops) {
      forall swept | WithoutSweeps(swept) == ops && InOrder(since, swept)
        ensures Answers(s, map[], swept) == Answers(s, map[], ops)
      {
        SweepsAreInvisible(s, swept, since);
      }
    } else {
      var swept := PlaceASweep(s, map[], ops, since);
    }
  }

  // ---------------------------------------------------------------------
  // The rate bound
  // ---------------------------------------------------------------------

  /** The tokens `key` could draw on at time `now`; an untracked key has a full burst. */
  ghost function Available(s: Settings, m: map<Key, Level>, key: Key, now: int): real {
    if key in m then
      var t := m[key].tokens + Accrued(s, now - m[key].last);
      if t > s.burst then s.burst else t
    else s.burst
  }

  lemma StepSpendsWhatItGrants(s: Settings, m: map<Key, Level>, op: Op, key: Key, since: int)
    requires Configured(s) && Sane(s, m, since) && since <= op.now
    ensures Available(s, After(s, m, op), key, op.now)
            + (if op.Allow? && op.key == key && Granted(s, m, key, op.now) then 1.0 else 0.0)
            <= Available(s, m, key, since) + Accrued(s, op.now - since)
  {
    AccruedAdds(s, op.now - since, 0);
    if key in m {
      AccruedAdds(s, since - m[key].last, op.now - since);
      AccruedAdds(s, op.now - m[key].last, 0);
      if op.Sweep? && key !in After(s, m, op) {
        IdleBucketsAreFull(s, op.now - m[key].last);
      }
    }
    assert Accrued(s, 0) == 0.0;
  }

  lemma {:induction false} GrantsAreBounded(s: Settings, m: map<Key, Level>, ops: seq<Op>, key: Key, since: int)
    requires Configured(s) && Sane(s, m, since) && InOrder(since, ops)
    ensures ops != [] ==>
              Grants(s, m, ops, key) as real
              <= Available(s, m, key, since) + Accrued(s, ops[|ops| - 1].now - since)
    decreases |ops|
  {
    if ops != [] {
      var op, rest := ops[0], ops[1..];
      StepSpendsWhatItGrants(s, m, op, key, since);
      StepKeepsSane(s, m, op, since);
      GrantsAreBounded(s, After(s, m, op), rest, key, op.now);
      if rest != [] {
        assert rest[|rest| - 1] == ops[|ops| - 1];
        LastIsLatest(op.now, rest);
        AccruedAdds(s, op.now - since, rest[|rest| - 1].now - op.now);
      } else {
        AvailableIsNotNegative(s, After(s, m, op), key, op.now);
      }
    }
  }

  lemma AvailableIsNotNegative(s: Settings, m: map<Key, Level>, key: Key, now: int)
    requires Configured(s) && Sane(s, m, now)
    ensures Available(s, m, key, now) >= 0.0
  {
    if key in m {
      AccruedAdds(s, now - m[key].last, 0);
    }
  }

  lemma {:induction false} LastIsLatest(since: int, ops: seq<Op>)
    requires InOrder(since, ops) && ops != []
    ensures since <= ops[0].now <= ops[|ops| - 1].now
    decreases |ops|
  {
    if |ops| > 1 {
      LastIsLatest(ops[0].now, ops[1..]);
    }
  }

  lemma StretchIsBounded(s: Settings, before: seq<Op>, stretch: seq<Op>, key: Key, since: int)
    requires Configured(s) && InOrder(since, before + stretch) && stretch != []
    ensures Grants(s, Run(s, map[], before), stretch, key) as real
            <= s.burst + Accrued(s, stretch[|stretch| - 1].now - stretch[0].now)
  {
    SplitOrder(since, before, stretch);
    var start := if before == [] then since else before[|before| - 1].now;
    TokensStayInRange(s, map[], before, since);
    var m := Run(s, map[], before);
    assert Sane(s, m, stretch[0].now);
    GrantsAreBounded(s, m, stretch, key, stretch[0].now);
  }

  /** Grants within a burst and what the rate earns in `dt` nanoseconds. */
  ghost predicate Within(s: Settings, grants: int, dt: int) {
    1000000000.0 * grants as real <= 1000000000.0 * s.burst + s.rate * dt as real
  }

  lemma WithinIsAccrued(s: Settings, grants: int, dt: int)
    ensures Within(s, grants, dt) <==> grants as real <= s.burst + Accrued(s, dt)
  {
    PerSecond(dt as real, s.rate);
  }

  lemma PerSecond(dt: real, rate: real)
    ensures 1000000000.0 * (dt / 1000000000.0 * rate) == rate * dt
  {
  }

  /** What a limiter is for: over any stretch of any run, from the stretch's
      first call to its last, one key is granted at most a burst plus what the
      rate earns in between (per second; times are in nanoseconds), sweeps and a
      full key map included. */
  lemma RateIsBounded(s: Settings, before: seq<Op>, stretch: seq<Op>, key: Key, since: int)
    requires Configured(s) && InOrder(since, before + stretch) && stretch != []
    ensures Within(s, Grants(s, Run(s, map[], before), stretch, key), stretch[|stretch| - 1].now - stretch[0].now)
  {
    StretchIsBounded(s, before, stretch, key, since);
    WithinIsAccrued(
      s, Grants(s, Run(s, map[], before), stretch, key), stretch[|stretch| - 1].now - stretch[0].now);
  }

  lemma {:induction false} SplitOrder(since: int, before: seq<Op>, stretch: seq<Op>)
    requires InOrder(since, before + stretch) && stretch != []
    ensures InOrder(since, before)
    ensures InOrder(stretch[0].now, stretch)
    ensures (if before == [] then since else before[|before| - 1].now) <= stretch[0].now
    decreases |before|
  {
    if before == [] {
      assert before + stretch == stretch;
    } else {
      assert (before + stretch)[1..] == before[1..] + stretch;
      SplitOrder(before[0].now, before[1..], stretch);
    }
  }

  // ---------------------------------------------------------------------
  // Exactly when a call is granted
  // ---------------------------------------------------------------------

  lemma {:induction false} RunInParts(s: Settings, m: map<Key, Level>, a: seq<Op>, b: seq<Op>)
    requires Configured(s)
    ensures Run(s, m, a + b) == Run(s, Run(s, m, a), b)
    decreases |a|
  {
    if a == [] {
      assert a + b == b;
    } else {
      assert (a + b)[1..] == a[1..] + b;
      RunInParts(s, After(s, m, a[0]), a[1..], b);
    }
  }

  lemma {:induction false} GrantsInParts(s: Settings, m: map<Key, Level>, a: seq<Op>, b: seq<Op>, key: Key)
    requires Configured(s)
    ensures Grants(s, m, a + b, key) == Grants(s, m, a, key) + Grants(s, Run(s, m, a), b, key)
    decreases |a|
  {
    if a == [] {
      assert a + b == b;
    } else {
      assert (a + b)[1..] == a[1..] + b;
      GrantsInParts(s, After(s, m, a[0]), a[1..], b, key);
    }
  }

  lemma GrantsOfOne(s: Settings, m: map<Key, Level>, op: Op, key: Key)
    requires Configured(s)
    ensures Grants(s, m, [op], key) == if op.Allow? && op.key == key && Granted(s, m, key, op.now) then 1 else 0
    ensures Run(s, m, [op]) == After(s, m, op)
  {
    assert [op][1..] == [];
  }

  /** How often `key` was granted from the `i`-th call of a run on. */
  ghost function GrantsSince(s: Settings, ops: seq<Op>, i: nat, key: Key): nat
    requires Configured(s) && i <= |ops|
  {
    Grants(s, Run(s, map[], ops[..i]), ops[i..], key)
  }

  lemma GrantsSinceOneMore(s: Settings, ops: seq<Op>, op: Op, i: nat, key: Key)
    requires Configured(s) && i <= |ops|
    ensures GrantsSince(s, ops + [op], i, key)
            == GrantsSince(s, ops, i, key)
               + if op.Allow? && op.key == key && Granted(s, Run(s, map[], ops), key, op.now) then 1 else 0
  {
    assert (ops + [op])[..i] == ops[..i];
    assert (ops + [op])[i..] == ops[i..] + [op];
    assert ops[..i] + ops[i..] == ops;
    RunInParts(s, map[], ops[..i], ops[i..]);
    GrantsInParts(s, Run(s, map[], ops[..i]), ops[i..], [op], key);
    GrantsOfOne(s, Run(s, map[], ops), op, key);
  }

  /** A bucket holds a burst and what was earned since the `i`-th call, less what
      was granted since: it was full just before that call. */
  ghost predicate FullBefore(s: Settings, ops: seq<Op>, i: nat, key: Key, b: Level)
    requires Configured(s)
  {
    && i < |ops| && ops[i].now <= b.last
    && b.tokens == s.burst + Accrued(s, b.last - ops[i].now) - GrantsSince(s, ops, i, key) as real
  }

  lemma JustFilled(s: Settings, ops: seq<Op>, op: Op, key: Key)
    requires Configured(s) && op == Allow(key, op.now) && Granted(s, Run(s, map[], ops), key, op.now)
    ensures FullBefore(s, ops + [op], |ops|, key, Level(s.burst - 1.0, op.now))
  {
    assert ops[|ops|..] == [];
    GrantsSinceOneMore(s, ops, op, |ops|, key);
    assert Accrued(s, 0) == 0.0;
  }

  /** Where drawing does not overflow, it draws on what was earned. */
  lemma DrawnFrom(s: Settings, b: Level, now: int)
    requires Configured(s) && b.last <= now && b.tokens + Accrued(s, now - b.last) <= s.burst
    ensures Drawn(s, b, now).last == now
    ensures Drawn(s, b, now).tokens
            == b.tokens + Accrued(s, now - b.last) - if Refilled(s, b, now).tokens >= 1.0 then 1.0 else 0.0
  {
    assert Accrued(s, 0) == 0.0;
  }

  lemma DrawnFromFull(s: Settings, b: Level, now: int)
    requires Configured(s) && b.last <= now && b.tokens <= s.burst && b.tokens + Accrued(s, now - b.last) > s.burst
    ensures Drawn(s, b, now) == Level(s.burst - 1.0, now) && Refilled(s, b, now).tokens >= 1.0
  {
    assert Accrued(s, 0) == 0.0;
  }

  lemma StillSince(s: Settings, ops: seq<Op>, op: Op, i: nat, key: Key, b: Level)
    requires Configured(s) && FullBefore(s, ops, i, key, b) && b.last <= op.now
    requires op == Allow(key, op.now) && key in Run(s, map[], ops) && Run(s, map[], ops)[key] == b
    requires b.tokens + Accrued(s, op.now - b.last) <= s.burst
    ensures FullBefore(s, ops + [op], i, key, Drawn(s, b, op.now))
  {
    GrantsSinceOneMore(s, ops, op, i, key);
    DrawnFrom(s, b, op.now);
    AccruedAdds(s, b.last - ops[i].now, op.now - b.last);
  }

  lemma OneCallMore(s: Settings, ops: seq<Op>, op: Op, since: int)
    requires Configured(s) && InOrder(since, ops + [op])
    ensures InOrder(since, ops) && Sane(s, Run(s, map[], ops), op.now)
    ensures Run(s, map[], ops + [op]) == After(s, Run(s, map[], ops), op)
  {
    SplitOrder(since, ops, [op]);
    TokensStayInRange(s, map[], ops, since);
    RunInParts(s, map[], ops, [op]);
    GrantsOfOne(s, Run(s, map[], ops), op, "");
  }

  lemma AllowKeepsFullBefore(s: Settings, ops: seq<Op>, op: Op, i: nat, key: Key, b: Level)
    requires Configured(s) && FullBefore(s, ops, i, key, b) && b.last <= op.now && b.tokens <= s.burst
    requires op == Allow(key, op.now) && key in Run(s, map[], ops) && Run(s, map[], ops)[key] == b
    ensures exists i: nat :: FullBefore(s, ops + [op], i, key, Drawn(s, b, op.now))
  {
    if b.tokens + Accrued(s, op.now - b.last) > s.burst {
      DrawnFromFull(s, b, op.now);
      JustFilled(s, ops, op, key);
    } else {
      StillSince(s, ops, op, i, key, b);
    }
  }

  lemma OtherKeepsFullBefore(s: Settings, ops: seq<Op>, op: Op, i: nat, key: Key, b: Level)
    requires Configured(s) && FullBefore(s, ops, i, key, b) && op != Allow(key, op.now)
    ensures FullBefore(s, ops + [op], i, key, b)
  {
    GrantsSinceOneMore(s, ops, op, i, key);
  }

  lemma BucketAfter(s: Settings, m: map<Key, Level>, op: Op, key: Key)
    requires Configured(s) && key in m && key in After(s, m, op)
    ensures After(s, m, op)[key] == if op == Allow(key, op.now) then Drawn(s, m[key], op.now) else m[key]
  {
  }

  /** Every tracked bucket was full just before some call of the run. */
  lemma {:induction false} BucketsWereFull(s: Settings, ops: seq<Op>, key: Key, since: int)
    requires Configured(s) && InOrder(since, ops) && key in Run(s, map[], ops)
    ensures exists i: nat :: FullBefore(s, ops, i, key, Run(s, map[], ops)[key])
    decreases |ops|
  {
    var before, op := ops[..|ops| - 1], ops[|ops| - 1];
    assert ops == before + [op];
    OneCallMore(s, before, op, since);
    if key in Run(s, map[], before) {
      BucketsWereFull(s, before, key, since);
      var i: nat :| FullBefore(s, before, i, key, Run(s, map[], before)[key]);
      var b := Run(s, map[], before)[key];
      BucketAfter(s, Run(s, map[], before), op, key);
      if op == Allow(key, op.now) {
        AllowKeepsFullBefore(s, before, op, i, key, b);
      } else {
        OtherKeepsFullBefore(s, before, op, i, key, b);
      }
    } else {
      JustFilled(s, before, op, key);
    }
  }

  /** The law of the token bucket. A tracked key is granted if and only if one
      more grant keeps every stretch of the run that ends now within a burst plus
      what the rate earns during the stretch. */
  lemma GrantedIff(s: Settings, ops: seq<Op>, key: Key, now: int, since: int)
    requires Configured(s) && InOrder(since, ops + [Allow(key, now)]) && key in Run(s, map[], ops)
    ensures Granted(s, Run(s, map[], ops), key, now)
            <==> forall i :: 0 <= i < |ops| ==> Within(s, GrantsSince(s, ops, i, key) + 1, now - ops[i].now)
  {
    if Granted(s, Run(s, map[], ops), key, now) {
      forall i | 0 <= i < |ops|
        ensures Within(s, GrantsSince(s, ops, i, key) + 1, now - ops[i].now)
      {
        GrantStaysWithin(s, ops, Allow(key, now), i, key, since);
      }
    } else {
      RefusedOnlyIfSpent(s, ops, key, now, since);
    }
  }

  lemma GrantStaysWithin(s: Settings, ops: seq<Op>, op: Op, i: nat, key: Key, since: int)
    requires Configured(s) && InOrder(since, ops + [op]) && i < |ops|
    requires op == Allow(key, op.now) && Granted(s, Run(s, map[], ops), key, op.now)
    ensures Within(s, GrantsSince(s, ops, i, key) + 1, op.now - ops[i].now)
  {
    var all := ops + [op];
    GrantsSinceOneMore(s, ops, op, i, key);
    assert all == all[..i] + all[i..];
    RateIsBounded(s, all[..i], all[i..], key, since);
  }

  lemma RefusedOnlyIfSpent(s: Settings, ops: seq<Op>, key: Key, now: int, since: int)
    requires Configured(s) && InOrder(since, ops + [Allow(key, now)]) && key in Run(s, map[], ops)
    requires !Granted(s, Run(s, map[], ops), key, now)
    ensures exists i :: 0 <= i < |ops| && !Within(s, GrantsSince(s, ops, i, key) + 1, now - ops[i].now)
  {
    OneCallMore(s, ops, Allow(key, now), since);
    BucketsWereFull(s, ops, key, since);
    var b := Run(s, map[], ops)[key];
    var i: nat :| FullBefore(s, ops, i, key, b);
    NotEnoughLeft(s, b, now);
    AccruedAdds(s, b.last - ops[i].now, now - b.last);
    WithinIsAccrued(s, GrantsSince(s, ops, i, key) + 1, now - ops[i].now);
  }

  lemma NotEnoughLeft(s: Settings, b: Level, now: int)
    requires Configured(s) && b.last <= now && b.tokens <= s.burst && Refilled(s, b, now).tokens < 1.0
    ensures b.tokens + Accrued(s, now - b.last) < 1.0
  {
    assert Accrued(s, 0) == 0.0;
  }

  lemma {:induction false} TrackedFits(s: Settings, ops: seq<Op>)
    requires Configured(s)
    ensures Fits(s, Run(s, map[], ops))
  {
    if ops != [] {
      var before, op := ops[..|ops| - 1], ops[|ops| - 1];
      assert ops == before + [op];
      TrackedFits(s, before);
      RunInParts(s, map[], before, [op]);
      GrantsOfOne(s, Run(s, map[], before), op, "");
      if op.Allow? {
        StepFits(s, Run(s, map[], before), op);
      } else {
        FewerTracked(AfterSweep(s, Run(s, map[], before), op.now), Run(s, map[], before));
      }
    }
  }

  /** An untracked key is refused if and only if the map is full: on every run it
      tracks as many keys as it may, and never more. */
  lemma NewKeyIsRefusedIff(s: Settings, ops: seq<Op>, key: Key, now: int)
    requires Configured(s) && key !in Run(s, map[], ops)
    ensures var tracked := |Run(s, map[], ops)|;
            && (s.max >= 0 ==> tracked <= s.max)
            && (!Granted(s, Run(s, map[], ops), key, now)
                <==> tracked == if s.max >= 0 then s.max else 0)
  {
    TrackedFits(s, ops);
  }

  /** A sweep drops exactly the buckets whose idle time would earn more than a
      burst. */
  lemma SweepDropsIff(s: Settings, m: map<Key, Level>, now: int, key: Key)
    requires Configured(s) && key in m
    ensures key in AfterSweep(s, m, now) <==> s.rate * (now - m[key].last) as real <= 1000000000.0 * s.burst
    ensures key in AfterSweep(s, m, now) ==> AfterSweep(s, m, now)[key] == m[key]
  {
    var dt, span := now - m[key].last, s.burst / s.rate;
    assert span * s.rate == s.burst;
    assert dt > Idle(s) <==> dt as real > 1000000000.0 * span;
    TimesRate(dt as real, 1000000000.0 * span, s.rate);
    assert 1000000000.0 * span * s.rate == 1000000000.0 * s.burst;
  }

  lemma TimesRate(a: real, b: real, rate: real)
    requires rate > 0.0
    ensures a > b <==> a * rate > b * rate
  {
  }
}
