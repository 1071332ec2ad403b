/** The rolling unique-visitor rings of internal/sketch/hll.go.

    A sketch is modelled as the exact set of hashes put into it, merging as
    union and estimating as counting. A ring position is a sketch plus the
    stamp of the epoch slot it holds. Times are integer nanoseconds. */
module Rolling {
  import opened Arithmetic
  import opened Hashing

  /** Division as the code's language has it: truncated toward zero. */
  function Quotient(a: int, b: int): int
    requires b > 0
  {
    if a >= 0 then a / b else -(-a / b)
  }

  /** The epoch slot of a time. */
  function Slot(res: int, t: int): int
    requires res > 0
  {
    Quotient(t, res)
  }

  /** A ring's whole state. */
  datatype Ring<T> = Ring(stamps: seq<int>, buckets: seq<set<T>>)

  ghost predicate WellFormed<T>(n: nat, r: Ring<T>) {
    n > 0 && |r.stamps| == |r.buckets| == n
  }

  function NewRing<T>(n: nat): Ring<T> {
    Ring(seq(n, _ => -1), seq(n, _ => {}))
  }

  /** The slots that fall on a position of the ring. The code's remainder takes
      the sign of the slot, so before the epoch only multiples of `n` do. */
  predicate HasPosition(n: nat, slot: int)
    requires n > 0
  {
    slot >= 0 || slot % n == 0
  }

  /** One insertion: a position stamped with another slot is recycled first. */
  function Inserted<T>(n: nat, r: Ring<T>, x: T, slot: int): Ring<T>
    requires WellFormed(n, r)
  {
    var i := slot % n;
    var kept := if r.stamps[i] == slot then r.buckets[i] else {};
    Ring(r.stamps[i := slot], r.buckets[i := kept + {x}])
  }

  /** Everything in the first `k` positions stamped inside the window that ends at slot `cur`. */
  function MergedUpTo<T>(n: nat, r: Ring<T>, cur: int, k: nat): set<T>
    requires WellFormed(n, r) && k <= n
  {
    if k == 0 then {}
    else
      MergedUpTo(n, r, cur, k - 1)
      + if cur - n < r.stamps[k - 1] <= cur then r.buckets[k - 1] else {}
  }

  function Merged<T>(n: nat, r: Ring<T>, cur: int): set<T>
    requires WellFormed(n, r)
  {
    MergedUpTo(n, r, cur, n)
  }

  class Rolling {
    const res: int
    const buckets: array<set<Word>>
    const stamps: array<int>

    ghost predicate Valid() {
      res > 0 && buckets.Length == stamps.Length > 0
    }

    ghost function State(): (r: Ring<Word>)
      requires Valid()
      reads buckets, stamps
      ensures WellFormed(buckets.Length, r)
    {
      Ring(stamps[..], buckets[..])
    }

    constructor (res: int, n: nat)
      requires res > 0 && n > 0
      ensures Valid() && this.res == res && buckets.Length == n
      ensures fresh(buckets) && fresh(stamps)
      ensures State() == NewRing(n)
    {
      this.res := res;
      buckets := new set<Word>[n](_ => {});
      stamps := new int[n](_ => -1);
    }

    method Insert(id: Word, t: int)
      requires Valid() && HasPosition(buckets.Length, Slot(res, t))
      modifies buckets, stamps
      ensures State() == Inserted(buckets.Length, old(State()), Mix(id), Slot(res, t))
    {
      Put(Mix(id), Slot(res, t));
    }

    /** Puts a hash into the position of its slot, recycling a stale one first. */
    method Put(hash: Word, slot: int)
      requires Valid() && HasPosition(buckets.Length, slot)
      modifies buckets, stamps
      ensures State() == Inserted(buckets.Length, old(State()), hash, slot)
    {
      var i := slot % buckets.Length;
      if stamps[i] != slot {
        buckets[i] := {};
        stamps[i] := slot;
      }
      buckets[i] := buckets[i] + {hash};
    }

    method Estimate(t: int) returns (count: nat)
      requires Valid()
      ensures count == |Merged(buckets.Length, State(), Slot(res, t))|
    {
      var cur := Slot(res, t);
      var oldest := cur - buckets.Length + 1;
      var acc: set<Word> := {};
      var any := false;
      for i := 0 to stamps.Length
        invariant acc == MergedUpTo(buckets.Length, State(), cur, i)
        invariant !any ==> acc == {}
      {
        if stamps[i] < oldest || stamps[i] > cur {
          continue;
        }
        acc := acc + buckets[i];
        any := true;
      }
      if !any {
        return 0;
      }
      return |acc|;
    }

    /** The span the ring covers. */
    method Window() returns (span: int)
      requires Valid()
      ensures span == res * buckets.Length
    {
      return res * buckets.Length;
    }
  }

  // ---------------------------------------------------------------------
  // Slots and time
  // ---------------------------------------------------------------------

  lemma SlotBounds(res: int, t: int)
    requires res > 0 && t >= 0
    ensures res * Slot(res, t) <= t < res * Slot(res, t) + res
  {
  }

  /** Slots are counted toward zero on both sides of the epoch. */
  lemma SlotTruncates(res: int, t: int)
    requires res > 0 && t >= 0
    ensures res * Slot(res, t) <= t < res * Slot(res, t) + res
    ensures Slot(res, -t) == -Slot(res, t)
  {
    SlotBounds(res, t);
  }

  lemma SlotDistance(res: int, n: int, at: int, t: int)
    requires res > 0 && at >= 0 && t >= 0
    ensures t - at <= n * res ==> Slot(res, t) - Slot(res, at) <= n
    ensures t - at >= n * res ==> Slot(res, t) - Slot(res, at) >= n
  {
    SlotBounds(res, at);
    SlotBounds(res, t);
    var d := Slot(res, t) - Slot(res, at);
    assert res * Slot(res, t) - res * Slot(res, at) == res * d;
    assert res * (d - n) == res * d - n * res;
    MultipleOf(res, d - n);
    MultipleOf(res, n - d);
    assert res * (n - d) == n * res - res * d;
  }

  // ---------------------------------------------------------------------
  // What a ring stands for
  // ---------------------------------------------------------------------

  /** Something inserted, and the slot it was inserted for. */
  datatype Insertion<T> = Insertion(what: T, slot: nat)

  /** The latest slot visited; -1 before the first visit. */
  ghost function Latest<T>(vs: seq<Insertion<T>>): (l: int)
    ensures l >= -1
    ensures forall v :: v in vs ==> v.slot <= l
    ensures l == -1 || exists v :: v in vs && v.slot == l
  {
    if vs == [] then -1
    else
      var l := Latest(vs[..|vs| - 1]);
      var s := vs[|vs| - 1].slot;
      if s > l then assert vs[|vs| - 1] in vs; s else l
  }

  /** What was inserted for slot `q`. */
  ghost function SeenIn<T>(vs: seq<Insertion<T>>, q: int): set<T> {
    set v | v in vs && v.slot == q :: v.what
  }

  /** What was inserted for the last `n` slots up to `cur`. */
  ghost function SeenWithin<T>(n: nat, vs: seq<Insertion<T>>, cur: int): set<T> {
    set v | v in vs && cur - n < v.slot <= cur :: v.what
  }

  /** What the ring still holds for slot `q`. */
  ghost function Held<T>(n: nat, r: Ring<T>, q: int): set<T>
    requires WellFormed(n, r)
  {
    if q >= 0 && r.stamps[q % n] == q then r.buckets[q % n] else {}
  }

  /** The ring after a run of insertions. */
  ghost function Replay<T>(n: nat, vs: seq<Insertion<T>>): (r: Ring<T>)
    requires n > 0
    ensures WellFormed(n, r)
  {
    if vs == [] then NewRing(n)
    else
      var v := vs[|vs| - 1];
      Inserted(n, Replay(n, vs[..|vs| - 1]), v.what, v.slot)
  }

  /** Every stamp belongs to its position, none is later than slot `l`, and
      exactly the unstamped positions are empty. */
  ghost predicate Stamped<T>(n: nat, r: Ring<T>, l: int) {
    && WellFormed(n, r)
    && (forall i :: 0 <= i < n ==>
          && -1 <= r.stamps[i] <= l
          && (r.stamps[i] == -1 <==> r.buckets[i] == {})
          && (r.stamps[i] >= 0 ==> r.stamps[i] % n == i))
  }

  /** The ring agrees with the visits on every slot of the current window. */
  ghost predicate Exact<T>(n: nat, r: Ring<T>, vs: seq<Insertion<T>>) {
    var l := Latest(vs);
    && Stamped(n, r, l)
    && (forall q :: 0 <= q && l - n < q <= l ==> Held(n, r, q) == SeenIn(vs, q))
  }

  /** The guard a caller could check: the slot is inside the window, or the
      position it falls on holds nothing of the window. */
  ghost predicate Harmless<T>(n: nat, r: Ring<T>, vs: seq<Insertion<T>>, slot: nat)
    requires WellFormed(n, r)
  {
    var l := Latest(vs);
    slot > l - n || r.stamps[slot % n] <= l - n
  }

  lemma SamePositionIsFarApart(a: int, b: int, n: int)
    requires n > 0 && a % n == b % n && a < b
    ensures a + n <= b
  {
    var d := b / n - a / n;
    assert b - a == n * d;
    MultipleOf(n, d);
  }

  lemma LatestOfOneMore<T>(vs: seq<Insertion<T>>, v: Insertion<T>)
    ensures Latest(vs + [v]) == if v.slot > Latest(vs) then v.slot else Latest(vs)
  {
    assert (vs + [v])[..|vs|] == vs;
  }

  lemma SeenInOneMore<T>(vs: seq<Insertion<T>>, v: Insertion<T>, q: int)
    ensures SeenIn(vs + [v], q) == SeenIn(vs, q) + if v.slot == q then {v.what} else {}
  {
    var all := vs + [v];
    forall x | x in SeenIn(vs, q) + (if v.slot == q then {v.what} else {})
      ensures x in SeenIn(all, q)
    {
      if x in SeenIn(vs, q) {
        var w :| w in vs && w.slot == q && w.what == x;
        assert w in all;
      } else {
        assert v in all;
      }
    }
  }

  lemma HarmlessInsertKeepsSlot<T>(n: nat, r: Ring<T>, vs: seq<Insertion<T>>, v: Insertion<T>, q: int)
    requires Exact(n, r, vs)
    requires Harmless(n, r, vs, v.slot)
    requires 0 <= q && Latest(vs + [v]) - n < q <= Latest(vs + [v])
    ensures Held(n, Inserted(n, r, v.what, v.slot), q) == SeenIn(vs + [v], q)
  {
    var s := v.slot;
    var l := Latest(vs);
    LatestOfOneMore(vs, v);
    SeenInOneMore(vs, v, q);
    if q > l {
      assert SeenIn(vs, q) == {} == Held(n, r, q);
    } else {
      assert SeenIn(vs, q) == Held(n, r, q);
    }
    if q % n == s % n && q != s {
      if s < q { SamePositionIsFarApart(s, q, n); } else { SamePositionIsFarApart(q, s, n); }
    }
  }

  lemma InsertKeepsStamped<T>(n: nat, r: Ring<T>, l: int, x: T, slot: nat)
    requires Stamped(n, r, l)
    ensures Stamped(n, Inserted(n, r, x, slot), if slot > l then slot else l)
  {
  }

  lemma HarmlessInsertStaysExact<T>(n: nat, r: Ring<T>, vs: seq<Insertion<T>>, v: Insertion<T>)
    requires Exact(n, r, vs)
    requires Harmless(n, r, vs, v.slot)
    ensures Exact(n, Inserted(n, r, v.what, v.slot), vs + [v])
  {
    var l, l' := Latest(vs), Latest(vs + [v]);
    LatestOfOneMore(vs, v);
    InsertKeepsStamped(n, r, l, v.what, v.slot);
    forall q | 0 <= q && l' - n < q <= l'
      ensures Held(n, Inserted(n, r, v.what, v.slot), q) == SeenIn(vs + [v], q)
    {
      HarmlessInsertKeepsSlot(n, r, vs, v, q);
    }
  }

  /** A late insertion on a position that still serves the window makes the
      ring forget that position's slot. */
  lemma HarmfulInsertForgets<T>(n: nat, r: Ring<T>, vs: seq<Insertion<T>>, v: Insertion<T>)
    requires Exact(n, r, vs)
    requires !Harmless(n, r, vs, v.slot)
    ensures !Exact(n, Inserted(n, r, v.what, v.slot), vs + [v])
  {
    var s := v.slot;
    var q := r.stamps[s % n];
    LatestOfOneMore(vs, v);
    assert q >= 0;
    assert Held(n, r, q) == SeenIn(vs, q) != {};
    SeenInOneMore(vs, v, q);
    assert Held(n, Inserted(n, r, v.what, s), q) == {};
  }

  /** An insertion keeps the ring exact if and only if it is harmless. */
  lemma InsertStaysExactIff<T>(n: nat, r: Ring<T>, vs: seq<Insertion<T>>, v: Insertion<T>)
    requires Exact(n, r, vs)
    ensures Exact(n, Inserted(n, r, v.what, v.slot), vs + [v])
            <==> Harmless(n, r, vs, v.slot)
  {
    if Harmless(n, r, vs, v.slot) {
      HarmlessInsertStaysExact(n, r, vs, v);
    } else {
      HarmfulInsertForgets(n, r, vs, v);
    }
  }

  /** Every insertion of the run is harmless when it happens. */
  ghost predicate AllHarmless<T>(n: nat, vs: seq<Insertion<T>>)
    requires n > 0
  {
    vs != [] ==>
      var before := vs[..|vs| - 1];
      AllHarmless(n, before) && Harmless(n, Replay(n, before), before, vs[|vs| - 1].slot)
  }

  /** The ring is exact at every moment of the run. */
  ghost predicate AlwaysExact<T>(n: nat, vs: seq<Insertion<T>>)
    requires n > 0
  {
    && Exact(n, Replay(n, vs), vs)
    && (vs != [] ==> AlwaysExact(n, vs[..|vs| - 1]))
  }

  /** From a new ring on, the ring is exact at every moment of a run if and only
      if every insertion is harmless when it happens. */
  lemma {:induction false} RunStaysExactIff<T>(n: nat, vs: seq<Insertion<T>>)
    requires n > 0
    ensures AlwaysExact(n, vs) <==> AllHarmless(n, vs)
  {
    if vs == [] {
      NewRingIsExact<T>(n);
    } else {
      var before, v := vs[..|vs| - 1], vs[|vs| - 1];
      RunStaysExactIff(n, before);
      assert before + [v] == vs;
      if AlwaysExact(n, before) {
        InsertStaysExactIff(n, Replay(n, before), before, v);
      }
    }
  }

  lemma SamePosition(a: int, n: int)
    requires n > 0
    ensures (a - n) % n == a % n
  {
    assert a - n == n * (a / n - 1) + a % n;
    RemainderOf(a - n, n, a / n - 1, a % n);
  }

  lemma TakenPositionIsNotMerged<T>(n: nat, x: T, y: T, slot: nat)
    requires 0 < n <= slot
    ensures Merged(n, Inserted(n, Inserted(n, NewRing(n), x, slot), y, slot - n), slot) == {}
  {
    var r1 := Inserted(n, NewRing(n), x, slot);
    var r := Inserted(n, r1, y, slot - n);
    SamePosition(slot, n);
    assert r.stamps == r1.stamps[slot % n := slot - n];
    assert forall i :: 0 <= i < n && i != slot % n ==> r1.stamps[i] == -1;
    assert forall i :: 0 <= i < n ==> r.stamps[i] <= slot - n;
    MergedUpToIsUnion(n, r, slot, n);
    if Merged(n, r, slot) != {} {
      var z :| z in MergedUpTo(n, r, slot, n);
      assert false;
    }
  }

  lemma LatestOfOne<T>(v: Insertion<T>)
    ensures Latest([v]) == v.slot
  {
    assert [v][..0] == [];
  }

  lemma LateInsertIsHarmful<T>(n: nat, x: T, y: T, slot: nat)
    requires 0 < n <= slot
    ensures !Harmless(n, Inserted(n, NewRing(n), x, slot), [Insertion(x, slot)], slot - n)
  {
    SamePosition(slot, n);
    LatestOfOne(Insertion(x, slot));
  }

  lemma LateVisitIsNotRecent<T>(n: nat, x: T, y: T, slot: nat)
    requires 0 < n <= slot
    ensures SeenWithin(n, [Insertion(x, slot), Insertion(y, slot - n)], slot) == {x}
  {
    var vs := [Insertion(x, slot), Insertion(y, slot - n)];
    assert vs[0] in vs;
  }

  lemma ReplayOfTwo<T>(n: nat, v: Insertion<T>, w: Insertion<T>)
    requires n > 0
    ensures [v, w][..1] == [v] && Replay(n, [v]) == Inserted(n, NewRing(n), v.what, v.slot)
    ensures Replay(n, [v, w]) == Inserted(n, Replay(n, [v]), w.what, w.slot)
  {
    assert [v][..0] == [];
    assert [v, w][..1] == [v];
  }

  /** Two insertions are enough to lose a current visitor: the second one is one
      turn of the ring late and takes the first one's position. */
  lemma LateInsertLosesAVisitor<T>(n: nat, x: T, y: T, slot: nat)
    requires 0 < n <= slot
    ensures var vs := [Insertion(x, slot), Insertion(y, slot - n)];
            && SeenWithin(n, vs, slot) == {x}
            && Merged(n, Replay(n, vs), slot) == {}
            && !AllHarmless(n, vs)
  {
    var v, w := Insertion(x, slot), Insertion(y, slot - n);
    ReplayOfTwo(n, v, w);
    LateVisitIsNotRecent(n, x, y, slot);
    TakenPositionIsNotMerged(n, x, y, slot);
    LateInsertIsHarmful(n, x, y, slot);
  }

  /** No visit is later than `n` slots behind the latest one before it. */
  ghost predicate Punctual<T>(n: nat, vs: seq<Insertion<T>>) {
    forall k :: 0 <= k < |vs| ==> vs[k].slot > Latest(vs[..k]) - n
  }

  lemma PrefixOfPrefix<T>(vs: seq<Insertion<T>>, k: nat, j: nat)
    requires j < k <= |vs|
    ensures vs[..k][..j] == vs[..j] && vs[..k][j] == vs[j]
  {
  }

  lemma PrefixIsPunctual<T>(n: nat, vs: seq<Insertion<T>>, k: nat)
    requires Punctual(n, vs) && k <= |vs|
    ensures Punctual(n, vs[..k])
  {
    forall j | 0 <= j < k
      ensures vs[..k][j].slot > Latest(vs[..k][..j]) - n
    {
      PrefixOfPrefix(vs, k, j);
      assert vs[j].slot > Latest(vs[..j]) - n;
    }
  }

  lemma NewRingIsExact<T>(n: nat)
    requires n > 0
    ensures Exact<T>(n, NewRing(n), [])
  {
  }

  lemma PunctualStepIsExact<T>(n: nat, r: Ring<T>, vs: seq<Insertion<T>>, k: nat)
    requires |vs| == k + 1 && Exact(n, r, vs[..k]) && vs[k].slot > Latest(vs[..k]) - n
    ensures Exact(n, Inserted(n, r, vs[k].what, vs[k].slot), vs)
  {
    assert vs[..k] + [vs[k]] == vs;
    HarmlessInsertStaysExact(n, r, vs[..k], vs[k]);
  }

  lemma {:induction false} PunctualRunIsExact<T>(n: nat, vs: seq<Insertion<T>>)
    requires n > 0 && Punctual(n, vs)
    ensures Exact(n, Replay(n, vs), vs)
    decreases |vs|
  {
    if vs == [] {
      NewRingIsExact<T>(n);
    } else {
      PrefixIsPunctual(n, vs, |vs| - 1);
      PunctualRunIsExact(n, vs[..|vs| - 1]);
      PunctualStepIsExact(n, Replay(n, vs[..|vs| - 1]), vs, |vs| - 1);
    }
  }

  lemma {:induction false} MergedUpToIsUnion<T>(n: nat, r: Ring<T>, cur: int, k: nat)
    requires WellFormed(n, r) && k <= n
    ensures forall x :: x in MergedUpTo(n, r, cur, k)
                        <==> exists i :: 0 <= i < k && cur - n < r.stamps[i] <= cur && x in r.buckets[i]
  {
    if k > 0 {
      MergedUpToIsUnion(n, r, cur, k - 1);
    }
  }

  lemma MergedWasSeen<T>(n: nat, r: Ring<T>, vs: seq<Insertion<T>>, cur: int, x: T)
    requires Exact(n, r, vs) && cur >= Latest(vs)
    requires x in Merged(n, r, cur)
    ensures x in SeenWithin(n, vs, cur)
  {
    MergedUpToIsUnion(n, r, cur, n);
    var i :| 0 <= i < n && cur - n < r.stamps[i] <= cur && x in r.buckets[i];
    var q := r.stamps[i];
    assert Held(n, r, q) == r.buckets[i];
    assert x in SeenIn(vs, q);
  }

  lemma SeenIsMerged<T>(n: nat, r: Ring<T>, vs: seq<Insertion<T>>, cur: int, v: Insertion<T>)
    requires Exact(n, r, vs) && cur >= Latest(vs)
    requires v in vs && cur - n < v.slot <= cur
    ensures v.what in Merged(n, r, cur)
  {
    MergedUpToIsUnion(n, r, cur, n);
    var q := v.slot;
    assert SeenIn(vs, q) == Held(n, r, q);
    assert v.what in SeenIn(vs, q);
    assert v.what in r.buckets[q % n] && r.stamps[q % n] == q;
  }

  /** An exact ring merges exactly what the last `n` slots saw, asked at any
      slot not before the latest visited one. */
  lemma ExactRingMergesTheWindow<T>(n: nat, r: Ring<T>, vs: seq<Insertion<T>>, cur: int)
    requires Exact(n, r, vs) && cur >= Latest(vs)
    ensures Merged(n, r, cur) == SeenWithin(n, vs, cur)
  {
    forall x | x in Merged(n, r, cur)
      ensures x in SeenWithin(n, vs, cur)
    {
      MergedWasSeen(n, r, vs, cur, x);
    }
    forall v | v in vs && cur - n < v.slot <= cur
      ensures v.what in Merged(n, r, cur)
    {
      SeenIsMerged(n, r, vs, cur, v);
    }
  }

  /** The ring refines the set of recent visits. */
  lemma RingRefinesRecentVisits<T>(n: nat, vs: seq<Insertion<T>>, cur: int)
    requires n > 0 && Punctual(n, vs) && cur >= Latest(vs)
    ensures Merged(n, Replay(n, vs), cur) == SeenWithin(n, vs, cur)
  {
    PunctualRunIsExact(n, vs);
    ExactRingMergesTheWindow(n, Replay(n, vs), vs, cur);
  }

  lemma PunctualInsertMovesForward<T>(n: nat, r: Ring<T>, l: int, x: T, slot: nat)
    requires Stamped(n, r, l) && slot > l - n
    ensures var r' := Inserted(n, r, x, slot);
            forall i :: 0 <= i < n ==>
              && r.stamps[i] <= r'.stamps[i]
              && (r.stamps[i] < r'.stamps[i] ==> r'.buckets[i] == {x})
  {
    var q := r.stamps[slot % n];
    if q > slot {
      SamePositionIsFarApart(slot, q, n);
    }
  }

  /** On a punctual run a stamp never moves back, and a position that moves on
      starts again from nothing. */
  lemma StampsOnlyMoveForward<T>(n: nat, vs: seq<Insertion<T>>)
    requires n > 0 && vs != [] && Punctual(n, vs)
    ensures var r, r' := Replay(n, vs[..|vs| - 1]), Replay(n, vs);
            forall i :: 0 <= i < n ==>
              && r.stamps[i] <= r'.stamps[i]
              && (r.stamps[i] < r'.stamps[i] ==> r'.buckets[i] == {vs[|vs| - 1].what})
  {
    PunctualRunIsExact(n, vs);
    var k := |vs| - 1;
    PrefixIsPunctual(n, vs, k);
    PunctualRunIsExact(n, vs[..k]);
    PunctualInsertMovesForward(
      n, Replay(n, vs[..k]), Latest(vs[..k]), vs[k].what, vs[k].slot);
  }
}
