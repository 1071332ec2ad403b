/** Admission of label values (`Guard` in internal/aggregate/guard.go): a value
    earns its own label once the sketch has seen it often enough and a slot is
    free, keeps it while it is seen, and loses it to `Decay`. */
module Guard {
  import opened Sketch

  const OTHER := "__other__"
  const ALL := "__all__"
  const NONE := "__none__"

  datatype Limits = Limits(cap: nat, minCount: nat)

  function NewLimits(capacity: int, minCount: nat): Limits {
    Limits(if capacity < 1 then 1 else capacity, if minCount < 1 then 1 else minCount)
  }

  /** The admitted values with the time each was last seen, and how many
      observations were folded. */
  datatype Slots = Slots(admitted: map<string, int>, capped: nat)

  const NO_SLOTS := Slots(map[], 0)

  /** Whether a value that the sketch now estimates at `est` gets its own label. */
  predicate Admits(k: Limits, g: Slots, est: nat, v: string) {
    v in g.admitted || (est >= k.minCount && |g.admitted| < k.cap)
  }

  function LabelFor(k: Limits, g: Slots, est: nat, v: string): string {
    if v == "" then NONE
    else if Admits(k, g, est, v) then v
    else OTHER
  }

  function AfterAdmit(k: Limits, g: Slots, est: nat, v: string, now: int): Slots {
    if v == "" then g
    else if Admits(k, g, est, v) then g.(admitted := g.admitted[v := now])
    else g.(capped := g.capped + 1)
  }

  /** The values not seen within the retention. */
  function Expired(g: Slots, now: int, after: int): set<string> {
    set v | v in g.admitted && now - g.admitted[v] > after
  }

  function AfterDecay(g: Slots, now: int, after: int): Slots {
    g.(admitted := g.admitted - Expired(g, now, after))
  }

  class Guard {
    const limits: Limits
    const cnt: Counter
    var admitted: map<string, int>
    var capped: nat

    ghost function Now(): Slots
      reads this
    {
      Slots(admitted, capped)
    }

    /** A guard with a sketch of its own. */
    constructor (capacity: int, minCount: nat, hash: string -> Hash)
      ensures limits == NewLimits(capacity, minCount) && Now() == NO_SLOTS
      ensures fresh(cnt) && fresh(cnt.cells) && cnt.Valid()
      ensures cnt.shape == Shape(4, 4096, hash) && cnt.Now() == State(Zeros(cnt.shape), 0)
    {
      limits := NewLimits(capacity, minCount);
      cnt := new Counter(4, 4096, hash);
      admitted, capped := map[], 0;
    }

    /** A guard that shares a sketch, as the two path guards of a site do. */
    constructor With(capacity: int, minCount: nat, c: Counter)
      ensures limits == NewLimits(capacity, minCount) && cnt == c && Now() == NO_SLOTS
    {
      limits := NewLimits(capacity, minCount);
      cnt := c;
      admitted, capped := map[], 0;
    }

    method Admit(v: string, now: int) returns (value: string)
      requires cnt.Valid()
      modifies this, cnt, cnt.cells
      ensures cnt.Valid()
      ensures v == "" ==> value == NONE && Now() == old(Now()) && cnt.Now() == old(cnt.Now())
      ensures v != "" ==>
                && value == LabelFor(limits, old(Now()), Estimate(cnt.shape, old(cnt.Now()), v), v)
                && Now() == AfterAdmit(limits, old(Now()), Estimate(cnt.shape, old(cnt.Now()), v), v, now)
                && cnt.Now() == AfterAdd(cnt.shape, old(cnt.Now()), v)
    {
      if v == "" {
        return NONE;
      }
      var est := cnt.Add(v);
      if v in admitted {
        admitted := admitted[v := now];
        return v;
      }
      if est >= limits.minCount && |admitted| < limits.cap {
        admitted := admitted[v := now];
        return v;
      }
      capped := capped + 1;
      return OTHER;
    }

    /** The label a value would get, recording nothing. */
    method Peek(v: string) returns (value: string, known: bool)
      ensures known <==> v != "" && v in admitted
      ensures value == if v == "" then NONE else if v in admitted then v else OTHER
    {
      if v == "" {
        return NONE, false;
      }
      if v in admitted {
        return v, true;
      }
      return OTHER, false;
    }

    method Decay(now: int, after: int) returns (dropped: seq<string>)
      requires cnt.Valid()
      modifies this, cnt, cnt.cells
      ensures cnt.Valid()
      ensures Now() == AfterDecay(old(Now()), now, after)
      ensures forall v :: v in dropped <==> v in Expired(old(Now()), now, after)
      ensures forall i, j :: 0 <= i < j < |dropped| ==> dropped[i] != dropped[j]
      ensures cnt.Now() == if dropped == [] then old(cnt.Now()) else AfterReset(cnt.shape, old(cnt.Now()))
    {
      ghost var was := Now();
      dropped := [];
      var pending := admitted.Keys;
      while pending != {}
        invariant cnt.Valid() && cnt.Now() == old(cnt.Now()) && capped == old(capped)
        invariant pending <= was.admitted.Keys
        invariant forall v :: v in dropped <==> v in Expired(was, now, after) && v !in pending
        invariant forall i, j :: 0 <= i < j < |dropped| ==> dropped[i] != dropped[j]
        invariant admitted == was.admitted - (Expired(was, now, after) - pending)
        decreases pending
      {
        var v :| v in pending;
        pending := pending - {v};
        if now - admitted[v] > after {
          dropped := dropped + [v];
          admitted := admitted - {v};
        }
      }
      if |dropped| > 0 {
        cnt.Reset();
      }
    }

    method Len() returns (n: nat)
      ensures n == |Now().admitted|
    {
      return |admitted|;
    }
  }
}
