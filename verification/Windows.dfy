/** The calendar-day sketch and the bundle of windows of internal/sketch/hll.go,
    and what the windows of one site say about each other. */
module Windows {
  import opened Hashing
  import opened Rolling

  const MINUTE: int := 60_000_000_000
  const HOUR: int := 3_600_000_000_000
  const DAY: int := 86_400_000_000_000

  // ---------------------------------------------------------------------
  // The calendar day
  // ---------------------------------------------------------------------

  /** A calendar date in the site's time zone, as the time library gives it. */
  datatype Date = Date(year: nat, month: nat, day: nat)

  ghost predicate IsDate(d: Date) {
    d.year >= 1 && 1 <= d.month <= 12 && 1 <= d.day <= 31
  }

  ghost predicate Earlier(a: Date, b: Date) {
    || a.year < b.year
    || (a.year == b.year && a.month < b.month)
    || (a.year == b.year && a.month == b.month && a.day < b.day)
  }

  function DayKey(d: Date): nat {
    d.year * 10000 + d.month * 100 + d.day
  }

  /** Keys order as dates do, so in particular no two dates share a key. */
  lemma DayKeysOrderDates(a: Date, b: Date)
    requires IsDate(a) && IsDate(b)
    ensures DayKey(a) < DayKey(b) <==> Earlier(a, b)
    ensures DayKey(a) == DayKey(b) <==> a == b
    ensures DayKey(a) > 0
    ensures DayKey(Date(2024, 3, 7)) == 20240307
  {
  }

  datatype DayState<T> = DayState(key: nat, seen: set<T>)

  function AfterDayInsert<T>(s: DayState<T>, x: T, key: nat): DayState<T> {
    DayState(key, (if key == s.key then s.seen else {}) + {x})
  }

  class Daily {
    var day: nat
    var sk: set<Word>

    ghost function State(): DayState<Word>
      reads this
    {
      DayState(day, sk)
    }

    constructor ()
      ensures State() == DayState(0, {})
    {
      day, sk := 0, {};
    }

    method Insert(id: Word, on: Date)
      modifies this
      ensures State() == AfterDayInsert(old(State()), Mix(id), DayKey(on))
    {
      var k := DayKey(on);
      if k != day {
        sk := {};
        day := k;
      }
      sk := sk + {Mix(id)};
    }

    method Estimate(on: Date) returns (count: nat)
      ensures count == if DayKey(on) == State().key then |State().seen| else 0
    {
      if DayKey(on) != day {
        return 0;
      }
      return |sk|;
    }
  }

  datatype DayVisit<T> = DayVisit(what: T, on: Date)

  ghost function ReplayDays<T>(vs: seq<DayVisit<T>>): DayState<T> {
    if vs == [] then DayState(0, {})
    else
      var v := vs[|vs| - 1];
      AfterDayInsert(ReplayDays(vs[..|vs| - 1]), v.what, DayKey(v.on))
  }

  ghost function SeenOn<T>(vs: seq<DayVisit<T>>, d: Date): set<T> {
    set v | v in vs && v.on == d :: v.what
  }

  /** No visit is dated before an earlier one. */
  ghost predicate DatesAscend<T>(vs: seq<DayVisit<T>>) {
    && (forall v :: v in vs ==> IsDate(v.on))
    && (forall j, k :: 0 <= j < k < |vs| ==> !Earlier(vs[k].on, vs[j].on))
  }

  lemma SeenOnOneMore<T>(vs: seq<DayVisit<T>>, v: DayVisit<T>, d: Date)
    ensures SeenOn(vs + [v], d) == SeenOn(vs, d) + if v.on == d then {v.what} else {}
  {
    var all := vs + [v];
    assert v in all;
    forall w | w in vs
      ensures w in all
    {
    }
  }

  lemma NothingSeenYet<T>(vs: seq<DayVisit<T>>, d: Date)
    requires DatesAscend(vs) && vs != [] && Earlier(vs[|vs| - 1].on, d)
    ensures SeenOn(vs, d) == {}
  {
    forall k | 0 <= k < |vs|
      ensures vs[k].on != d
    {
      if k < |vs| - 1 {
        assert !Earlier(vs[|vs| - 1].on, vs[k].on);
      }
    }
  }

  /** With dates that do not go back, the day sketch holds what its own day
      saw and nothing of any other day. */
  lemma {:induction false} DayHoldsItsOwnVisits<T>(vs: seq<DayVisit<T>>)
    requires DatesAscend(vs) && vs != []
    ensures ReplayDays(vs).key == DayKey(vs[|vs| - 1].on)
    ensures ReplayDays(vs).seen == SeenOn(vs, vs[|vs| - 1].on)
  {
    var k := |vs| - 1;
    var before, v := vs[..k], vs[k];
    assert vs == before + [v];
    SeenOnOneMore(before, v, v.on);
    if k > 0 {
      DayHoldsItsOwnVisits(before);
      DayKeysOrderDates(v.on, before[k - 1].on);
      DayKeysOrderDates(before[k - 1].on, v.on);
      assert !Earlier(vs[k].on, vs[k - 1].on);
      if before[k - 1].on != v.on {
        NothingSeenYet(before, v.on);
      }
    } else {
      DayKeysOrderDates(v.on, v.on);
    }
  }

  // ---------------------------------------------------------------------
  // The bundle
  // ---------------------------------------------------------------------

  ghost predicate Apart(a: Rolling, b: Rolling) {
    a.buckets != b.buckets && a.stamps != b.stamps
  }

  class Windows {
    const active: Rolling
    const h1: Rolling
    const d1: Rolling
    const d7: Rolling
    const d30: Rolling
    const today: Daily

    ghost predicate Valid() {
      && active.Valid() && active.res == MINUTE && active.buckets.Length == 5
      && h1.Valid() && h1.res == 5 * MINUTE && h1.buckets.Length == 12
      && d1.Valid() && d1.res == HOUR && d1.buckets.Length == 24
      && d7.Valid() && d7.res == DAY && d7.buckets.Length == 7
      && d30.Valid() && d30.res == DAY && d30.buckets.Length == 30
      && Apart(active, h1) && Apart(active, d1) && Apart(active, d7) && Apart(active, d30)
      && Apart(h1, d1) && Apart(h1, d7) && Apart(h1, d30)
      && Apart(d1, d7) && Apart(d1, d30) && Apart(d7, d30)
    }

    constructor ()
      ensures Valid()
      ensures active.State() == NewRing(5) && h1.State() == NewRing(12)
      ensures d1.State() == NewRing(24) && d7.State() == NewRing(7)
      ensures d30.State() == NewRing(30) && today.State() == DayState(0, {})
    {
      active := new Rolling(MINUTE, 5);
      h1 := new Rolling(5 * MINUTE, 12);
      d1 := new Rolling(HOUR, 24);
      d7 := new Rolling(DAY, 7);
      d30 := new Rolling(DAY, 30);
      today := new Daily();
    }

    /** Feeds a visitor id into every window. */
    method Insert(id: Word, t: int, on: Date)
      requires Valid()
      requires HasPosition(5, Slot(MINUTE, t)) && HasPosition(12, Slot(5 * MINUTE, t))
      requires HasPosition(24, Slot(HOUR, t))
      requires HasPosition(7, Slot(DAY, t)) && HasPosition(30, Slot(DAY, t))
      modifies active.buckets, active.stamps, h1.buckets, h1.stamps, d1.buckets, d1.stamps
      modifies d7.buckets, d7.stamps, d30.buckets, d30.stamps, today
      ensures active.State() == Inserted(5, old(active.State()), Mix(id), Slot(MINUTE, t))
      ensures h1.State() == Inserted(12, old(h1.State()), Mix(id), Slot(5 * MINUTE, t))
      ensures d1.State() == Inserted(24, old(d1.State()), Mix(id), Slot(HOUR, t))
      ensures d7.State() == Inserted(7, old(d7.State()), Mix(id), Slot(DAY, t))
      ensures d30.State() == Inserted(30, old(d30.State()), Mix(id), Slot(DAY, t))
      ensures today.State() == AfterDayInsert(old(today.State()), Mix(id), DayKey(on))
    {
      today.Insert(id, on);
      active.Insert(id, t);
      h1.Insert(id, t);
      d1.Insert(id, t);
      d7.Insert(id, t);
      d30.Insert(id, t);
    }
  }

  // ---------------------------------------------------------------------
  // Windows against time
  // ---------------------------------------------------------------------

  /** A visitor, and when the visit happened. */
  datatype Visit<T> = Visit(who: T, at: nat)

  /** The visits as a ring of resolution `res` gets them. */
  ghost function Slotted<T>(res: int, vs: seq<Visit<T>>): (ins: seq<Insertion<T>>)
    requires res > 0
    ensures |ins| == |vs|
    ensures forall k :: 0 <= k < |vs| ==> ins[k].what == vs[k].who && ins[k].slot == Slot(res, vs[k].at)
  {
    seq(|vs|, k requires 0 <= k < |vs| => Insertion(vs[k].who, Slot(res, vs[k].at)))
  }

  /** What a ring of `n` slots of length `res` merges at time `t` after the visits. */
  ghost function Unique<T>(res: int, n: nat, vs: seq<Visit<T>>, t: int): set<T>
    requires res > 0 && n > 0
  {
    Merged(n, Replay(n, Slotted(res, vs)), Slot(res, t))
  }

  /** No visit arrives more than `slack` after a later-dated one. */
  ghost predicate LateByAtMost<T>(slack: int, vs: seq<Visit<T>>) {
    forall j, k :: 0 <= j < k < |vs| ==> vs[j].at - vs[k].at <= slack
  }

  /** Who visited at an age of at most `age` at time `t`. */
  ghost function SeenSince<T>(vs: seq<Visit<T>>, t: int, age: int): set<T> {
    set v | v in vs && t - v.at <= age :: v.who
  }

  lemma SlackIsPunctualAt<T>(res: int, n: nat, vs: seq<Visit<T>>, slack: int, k: nat)
    requires res > 0 && LateByAtMost(slack, vs) && slack <= (n - 1) * res && k < |vs|
    ensures Slotted(res, vs)[k].slot > Latest(Slotted(res, vs)[..k]) - n
  {
    var ins := Slotted(res, vs);
    if Latest(ins[..k]) >= 0 {
      var i :| i in ins[..k] && i.slot == Latest(ins[..k]);
      var j :| 0 <= j < k && ins[j] == i;
      SlotDistance(res, n - 1, vs[k].at, vs[j].at);
    }
  }

  /** A ring tolerates visits that are late by one slot less than its span. */
  lemma SlackIsPunctual<T>(res: int, n: nat, vs: seq<Visit<T>>, slack: int)
    requires res > 0 && n > 0 && LateByAtMost(slack, vs) && 0 <= slack <= (n - 1) * res
    ensures Punctual(n, Slotted(res, vs))
  {
    forall k | 0 <= k < |vs|
      ensures Slotted(res, vs)[k].slot > Latest(Slotted(res, vs)[..k]) - n
    {
      SlackIsPunctualAt(res, n, vs, slack, k);
    }
  }

  lemma SlotAges(res: int, n: nat, at: nat, t: nat)
    requires res > 0 && at <= t
    ensures Slot(res, at) <= Slot(res, t)
    ensures t - at <= (n - 1) * res ==> Slot(res, t) - n < Slot(res, at)
    ensures t - at >= n * res ==> Slot(res, at) <= Slot(res, t) - n
  {
    SlotDistance(res, n - 1, at, t);
    SlotDistance(res, n, at, t);
    SlotDistance(res, 0, at, t);
  }

  lemma RecentVisitsAreSeen<T>(res: int, n: nat, vs: seq<Visit<T>>, t: nat, v: Visit<T>)
    requires res > 0 && v in vs && v.at <= t && t - v.at <= (n - 1) * res
    ensures v.who in SeenWithin(n, Slotted(res, vs), Slot(res, t))
  {
    var k :| 0 <= k < |vs| && vs[k] == v;
    assert Slotted(res, vs)[k] in Slotted(res, vs);
    SlotAges(res, n, v.at, t);
  }

  lemma SeenVisitsAreRecent<T>(res: int, n: nat, vs: seq<Visit<T>>, t: nat, x: T)
    requires res > 0 && x in SeenWithin(n, Slotted(res, vs), Slot(res, t))
    requires forall v :: v in vs ==> v.at <= t
    ensures x in SeenSince(vs, t, n * res - 1)
  {
    var ins, cur := Slotted(res, vs), Slot(res, t);
    var i :| i in ins && cur - n < i.slot <= cur && i.what == x;
    var k :| 0 <= k < |ins| && ins[k] == i;
    assert vs[k] in vs;
    SlotAges(res, n, vs[k].at, t);
  }

  lemma VisitsPrecede<T>(res: int, vs: seq<Visit<T>>, t: nat)
    requires res > 0 && forall v :: v in vs ==> v.at <= t
    ensures Slot(res, t) >= Latest(Slotted(res, vs))
  {
    var ins := Slotted(res, vs);
    if Latest(ins) >= 0 {
      var i :| i in ins && i.slot == Latest(ins);
      var k :| 0 <= k < |ins| && ins[k] == i;
      assert vs[k] in vs;
      SlotAges(res, 0, vs[k].at, t);
    } else {
      SlotBounds(res, t);
    }
  }

  /** At any time not before its visits, a ring of `n` slots merges every visit
      of age at most n - 1 slots and none of age n slots or more. */
  lemma RingSpan<T>(res: int, n: nat, vs: seq<Visit<T>>, t: nat, slack: int)
    requires res > 0 && n > 0 && LateByAtMost(slack, vs) && 0 <= slack <= (n - 1) * res
    requires forall v :: v in vs ==> v.at <= t
    ensures SeenSince(vs, t, (n - 1) * res) <= Unique(res, n, vs, t) <= SeenSince(vs, t, n * res - 1)
  {
    SlackIsPunctual(res, n, vs, slack);
    VisitsPrecede(res, vs, t);
    RingRefinesRecentVisits(n, Slotted(res, vs), Slot(res, t));
    forall v | v in vs && t - v.at <= (n - 1) * res
      ensures v.who in Unique(res, n, vs, t)
    {
      RecentVisitsAreSeen(res, n, vs, t, v);
    }
    forall x | x in Unique(res, n, vs, t)
      ensures x in SeenSince(vs, t, n * res - 1)
    {
      SeenVisitsAreRecent(res, n, vs, t, x);
    }
  }

  /** The five standard rings, in nanoseconds: the active window has everybody of
      the last four minutes and nobody of five minutes ago, the hour everybody of
      55 minutes, the day of 23 hours, the week of six days and the month of 29. */
  lemma StandardSpans<T>(vs: seq<Visit<T>>, t: nat)
    requires LateByAtMost(240_000_000_000, vs) && forall v :: v in vs ==> v.at <= t
    ensures SeenSince(vs, t, 240_000_000_000) <= Unique(MINUTE, 5, vs, t) <= SeenSince(vs, t, 299_999_999_999)
    ensures SeenSince(vs, t, 3_300_000_000_000) <= Unique(5 * MINUTE, 12, vs, t)
            <= SeenSince(vs, t, 3_599_999_999_999)
    ensures SeenSince(vs, t, 82_800_000_000_000) <= Unique(HOUR, 24, vs, t)
            <= SeenSince(vs, t, 86_399_999_999_999)
    ensures SeenSince(vs, t, 518_400_000_000_000) <= Unique(DAY, 7, vs, t)
            <= SeenSince(vs, t, 604_799_999_999_999)
    ensures SeenSince(vs, t, 2_505_600_000_000_000) <= Unique(DAY, 30, vs, t)
            <= SeenSince(vs, t, 2_591_999_999_999_999)
  {
    RingSpan(MINUTE, 5, vs, t, 240_000_000_000);
    RingSpan(5 * MINUTE, 12, vs, t, 240_000_000_000);
    RingSpan(HOUR, 24, vs, t, 240_000_000_000);
    RingSpan(DAY, 7, vs, t, 240_000_000_000);
    RingSpan(DAY, 30, vs, t, 240_000_000_000);
  }

  /** The longer window of two rings contains the shorter one's visitors. */
  lemma LongerWindowContainsShorter<T>(
    res: int, n: nat, res': int, n': nat, vs: seq<Visit<T>>, t: nat, slack: int)
    requires res > 0 && n > 0 && LateByAtMost(slack, vs) && 0 <= slack <= (n - 1) * res
    requires res' > 0 && n' > 0 && n * res - 1 <= (n' - 1) * res'
    requires forall v :: v in vs ==> v.at <= t
    ensures Unique(res, n, vs, t) <= Unique(res', n', vs, t)
  {
    assert (n - 1) * res == n * res - res;
    RingSpan(res, n, vs, t, slack);
    RingSpan(res', n', vs, t, slack);
  }

  /** The five standard rings nest at every moment, for visits that arrive at
      most four minutes late. */
  lemma WindowsNest<T>(vs: seq<Visit<T>>, t: nat)
    requires LateByAtMost(4 * MINUTE, vs)
    requires forall v :: v in vs ==> v.at <= t
    ensures Unique(MINUTE, 5, vs, t) <= Unique(5 * MINUTE, 12, vs, t)
    ensures Unique(5 * MINUTE, 12, vs, t) <= Unique(HOUR, 24, vs, t)
    ensures Unique(HOUR, 24, vs, t) <= Unique(DAY, 7, vs, t)
    ensures Unique(DAY, 7, vs, t) <= Unique(DAY, 30, vs, t)
  {
    LongerWindowContainsShorter(MINUTE, 5, 5 * MINUTE, 12, vs, t, 4 * MINUTE);
    LongerWindowContainsShorter(5 * MINUTE, 12, HOUR, 24, vs, t, 4 * MINUTE);
    LongerWindowContainsShorter(HOUR, 24, DAY, 7, vs, t, 4 * MINUTE);
    LongerWindowContainsShorter(DAY, 7, DAY, 30, vs, t, 4 * MINUTE);
  }

  // ---------------------------------------------------------------------
  // Windows against visitors
  // ---------------------------------------------------------------------

  /** The insertions as the sketches get them: ids replaced by their hashes. */
  ghost function Hashed<T, U>(ins: seq<Insertion<T>>, h: T -> U): (hs: seq<Insertion<U>>)
    ensures |hs| == |ins|
    ensures forall k :: 0 <= k < |ins| ==> hs[k] == Insertion(h(ins[k].what), ins[k].slot)
  {
    seq(|ins|, k requires 0 <= k < |ins| => Insertion(h(ins[k].what), ins[k].slot))
  }

  lemma SeenAreHashed<T, U>(n: nat, ins: seq<Insertion<T>>, h: T -> U, cur: int)
    ensures SeenWithin(n, Hashed(ins, h), cur) == Image(SeenWithin(n, ins, cur), h)
  {
    var hs := Hashed(ins, h);
    forall x | x in SeenWithin(n, hs, cur)
      ensures x in Image(SeenWithin(n, ins, cur), h)
    {
      var w :| w in hs && cur - n < w.slot <= cur && w.what == x;
      var k :| 0 <= k < |hs| && hs[k] == w;
      assert ins[k] in ins;
      assert ins[k].what in SeenWithin(n, ins, cur);
    }
    forall x | x in Image(SeenWithin(n, ins, cur), h)
      ensures x in SeenWithin(n, hs, cur)
    {
      var y :| y in SeenWithin(n, ins, cur) && h(y) == x;
      var v :| v in ins && cur - n < v.slot <= cur && v.what == y;
      var k :| 0 <= k < |ins| && ins[k] == v;
      assert hs[k] in hs;
    }
  }

  /** What a ring of hashes counts is the number of distinct visitors inserted
      for the last `n` slots. */
  lemma RingCountsVisitors(n: nat, ins: seq<Insertion<Word>>, cur: int)
    requires n > 0 && Punctual(n, Hashed(ins, Mix)) && cur >= Latest(Hashed(ins, Mix))
    ensures |Merged(n, Replay(n, Hashed(ins, Mix)), cur)| == |SeenWithin(n, ins, cur)|
  {
    RingRefinesRecentVisits(n, Hashed(ins, Mix), cur);
    SeenAreHashed(n, ins, Mix, cur);
    HashesCountIds(SeenWithin(n, ins, cur));
  }
}
