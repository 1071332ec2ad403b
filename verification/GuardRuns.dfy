/** What admission guarantees on every run of a guard, with any other user of
    its sketch in between. */
module GuardRuns {
  import opened Bags
  import opened Sketch
  import opened Guard
  import Bounds = SketchBounds

  /** `Elsewhere` is what a guard sharing the sketch does to it. */
  datatype Op =
    | Admit(v: string, now: int)
    | Decay(now: int, after: int)
    | Elsewhere(what: Bounds.Op)

  datatype World = World(slots: Slots, sketch: Bounds.World)

  /** The label the next `Admit(v)` would return. */
  ghost function Label(k: Limits, sh: Shape, w: World, v: string): string
    requires Bounds.WorldOk(sh, w.sketch)
  {
    LabelFor(k, w.slots, Estimate(sh, w.sketch.s, v), v)
  }

  /** What one call does to the sketch. */
  ghost function SketchOps(w: World, op: Op): seq<Bounds.Op> {
    match op
    case Admit(v, _) => if v == "" then [] else [Bounds.Add(v)]
    case Decay(now, after) => if Expired(w.slots, now, after) == {} then [] else [Bounds.Reset]
    case Elsewhere(what) => [what]
  }

  ghost function Step(k: Limits, sh: Shape, w: World, op: Op): (w': World)
    requires Bounds.WorldOk(sh, w.sketch)
    ensures Bounds.WorldOk(sh, w'.sketch)
  {
    var ops := SketchOps(w, op);
    var sketch := if ops == [] then w.sketch else Bounds.Step(sh, w.sketch, ops[0]);
    match op
    case Admit(v, now) => World(AfterAdmit(k, w.slots, Estimate(sh, w.sketch.s, v), v, now), sketch)
    case Decay(now, after) => World(AfterDecay(w.slots, now, after), sketch)
    case Elsewhere(_) => World(w.slots, sketch)
  }

  ghost function RunFrom(k: Limits, sh: Shape, w: World, ops: seq<Op>): (w': World)
    requires Bounds.WorldOk(sh, w.sketch)
    ensures Bounds.WorldOk(sh, w'.sketch)
  {
    if ops == [] then w else Step(k, sh, RunFrom(k, sh, w, ops[..|ops| - 1]), ops[|ops| - 1])
  }

  ghost function Run(k: Limits, sh: Shape, ops: seq<Op>): (w: World)
    requires sh.width > 0
    ensures Bounds.WorldOk(sh, w.sketch)
  {
    RunFrom(k, sh, World(NO_SLOTS, Bounds.Run(sh, [])), ops)
  }

  /** Everything a run does to the sketch. */
  ghost function AllSketchOps(k: Limits, sh: Shape, ops: seq<Op>): seq<Bounds.Op>
    requires sh.width > 0
  {
    if ops == [] then []
    else
      AllSketchOps(k, sh, ops[..|ops| - 1])
      + SketchOps(Run(k, sh, ops[..|ops| - 1]), ops[|ops| - 1])
  }

  lemma {:induction false} RunDrivesTheSketch(k: Limits, sh: Shape, ops: seq<Op>)
    requires sh.width > 0
    ensures Run(k, sh, ops).sketch == Bounds.Run(sh, AllSketchOps(k, sh, ops))
  {
    if ops != [] {
      var before := ops[..|ops| - 1];
      RunDrivesTheSketch(k, sh, before);
      var now := SketchOps(Run(k, sh, before), ops[|ops| - 1]);
      var all := AllSketchOps(k, sh, before);
      assert AllSketchOps(k, sh, ops) == all + now;
      if now == [] {
        assert all + now == all;
      } else {
        assert (all + now)[..|all|] == all;
      }
    }
  }

  /** The admitted set never outgrows the cap. */
  lemma {:induction false} AdmittedStaysWithinCap(k: Limits, sh: Shape, ops: seq<Op>)
    requires sh.width > 0
    ensures |Run(k, sh, ops).slots.admitted| <= k.cap
  {
    if ops != [] {
      var before, op := ops[..|ops| - 1], ops[|ops| - 1];
      AdmittedStaysWithinCap(k, sh, before);
      var slots := Run(k, sh, before).slots;
      if op.Decay? {
        FewerStayAdmitted(slots, op.now, op.after);
      } else if op.Admit? && op.v in slots.admitted {
        assert slots.admitted[op.v := op.now].Keys == slots.admitted.Keys;
      }
    }
  }

  lemma FewerStayAdmitted(g: Slots, now: int, after: int)
    ensures |AfterDecay(g, now, after).admitted| <= |g.admitted|
  {
    var left := AfterDecay(g, now, after).admitted;
    assert g.admitted.Keys == left.Keys + (g.admitted.Keys - left.Keys);
  }

  /** A value whose aged count reaches the threshold gets its own label as soon
      as a slot is free, whatever else the sketch has been fed. */
  lemma FrequentValuesGetIn(k: Limits, sh: Shape, ops: seq<Op>, v: string, now: int)
    requires sh.width > 0 && sh.depth > 0 && 2 * sh.width <= MAX32
    requires v != "" && |Run(k, sh, ops).slots.admitted| < k.cap
    requires Bounds.Count(Run(k, sh, ops + [Admit(v, now)]).sketch.truth, v) >= k.minCount
    ensures Label(k, sh, Run(k, sh, ops), v) == v
    ensures v in Run(k, sh, ops + [Admit(v, now)]).slots.admitted
  {
    var all := AllSketchOps(k, sh, ops);
    assert (ops + [Admit(v, now)])[..|ops|] == ops;
    RunDrivesTheSketch(k, sh, ops);
    assert (all + [Bounds.Add(v)])[..|all|] == all;
    Bounds.EstimateIsAnUpperBound(sh, all, v);
  }

  // ---------------------------------------------------------------------
  // Staying in
  // ---------------------------------------------------------------------

  /** When `v` was last seen, given that it was seen at `seen` before the run. */
  ghost function LastSeen(ops: seq<Op>, v: string, seen: int): int {
    if ops == [] then seen
    else
      var op := ops[|ops| - 1];
      if op.Admit? && op.v == v then op.now else LastSeen(ops[..|ops| - 1], v, seen)
  }

  /** No `Decay` of the run finds `v` unseen for longer than its retention. */
  ghost predicate KeptAlive(ops: seq<Op>, v: string, seen: int) {
    ops != [] ==>
      var before, op := ops[..|ops| - 1], ops[|ops| - 1];
      && KeptAlive(before, v, seen)
      && (op.Decay? ==> op.now - LastSeen(before, v, seen) <= op.after)
  }

  /** `v` is admitted at the start, after every call, and so at the end. */
  ghost predicate AlwaysAdmitted(k: Limits, sh: Shape, w: World, ops: seq<Op>, v: string)
    requires Bounds.WorldOk(sh, w.sketch)
  {
    && v in RunFrom(k, sh, w, ops).slots.admitted
    && (ops != [] ==> AlwaysAdmitted(k, sh, w, ops[..|ops| - 1], v))
  }

  /** An admitted value stays admitted throughout a run if and only if no
      `Decay` finds it unseen for longer than the retention. */
  lemma {:induction false} AdmittedUntilUnseen(k: Limits, sh: Shape, w: World, ops: seq<Op>, v: string)
    requires Bounds.WorldOk(sh, w.sketch) && v != "" && v in w.slots.admitted
    ensures AlwaysAdmitted(k, sh, w, ops, v) <==> KeptAlive(ops, v, w.slots.admitted[v])
    ensures AlwaysAdmitted(k, sh, w, ops, v) ==>
              var w' := RunFrom(k, sh, w, ops);
              && v in w'.slots.admitted
              && w'.slots.admitted[v] == LastSeen(ops, v, w.slots.admitted[v])
              && Label(k, sh, w', v) == v
  {
    if ops != [] {
      AdmittedUntilUnseen(k, sh, w, ops[..|ops| - 1], v);
    }
  }

  // ---------------------------------------------------------------------
  // From the calls alone
  // ---------------------------------------------------------------------

  datatype Sighting = Never | At(time: int)

  /** When a run last offered `v`. */
  ghost function LastOffer(ops: seq<Op>, v: string): Sighting {
    if ops == [] then Never
    else
      var op := ops[|ops| - 1];
      if op.Admit? && op.v == v then At(op.now) else LastOffer(ops[..|ops| - 1], v)
  }

  /** The time kept for an admitted value is that of its latest offer. */
  lemma {:induction false} TimesAreLatest(k: Limits, sh: Shape, ops: seq<Op>, v: string)
    requires sh.width > 0 && v in Run(k, sh, ops).slots.admitted
    ensures LastOffer(ops, v) == At(Run(k, sh, ops).slots.admitted[v]) && v != ""
  {
    if ops != [] {
      var before, op := ops[..|ops| - 1], ops[|ops| - 1];
      var slots := Run(k, sh, before).slots;
      if v in slots.admitted {
        TimesAreLatest(k, sh, before, v);
      }
    }
  }

  /** So from the offer that admits a value on, it stays admitted throughout if
      and only if no `Decay` comes that long after its latest offer. */
  lemma AdmittedSinceOffer(k: Limits, sh: Shape, ops: seq<Op>, v: string, now: int, more: seq<Op>)
    requires sh.width > 0 && v in Run(k, sh, ops + [Admit(v, now)]).slots.admitted
    ensures AlwaysAdmitted(k, sh, Run(k, sh, ops + [Admit(v, now)]), more, v) <==> KeptAlive(more, v, now)
  {
    TimesAreLatest(k, sh, ops + [Admit(v, now)], v);
    AdmittedUntilUnseen(k, sh, Run(k, sh, ops + [Admit(v, now)]), more, v);
  }

  /** How many offers a run answers by folding: with the catch-all label, and not
      because that is the value itself. */
  ghost function Folded(k: Limits, sh: Shape, ops: seq<Op>): nat
    requires sh.width > 0
  {
    if ops == [] then 0
    else
      var before, op := ops[..|ops| - 1], ops[|ops| - 1];
      Folded(k, sh, before) + if op.Admit? && Folds(k, sh, before, op.v) then 1 else 0
  }

  ghost predicate Folds(k: Limits, sh: Shape, ops: seq<Op>, v: string)
    requires sh.width > 0
  {
    && Label(k, sh, Run(k, sh, ops), v) == OTHER
    && (v == OTHER ==> v !in Run(k, sh, ops + [Admit(v, 0)]).slots.admitted)
  }

  lemma RunOneMore(k: Limits, sh: Shape, ops: seq<Op>, op: Op)
    requires sh.width > 0
    ensures Run(k, sh, ops + [op]) == Step(k, sh, Run(k, sh, ops), op)
  {
    assert (ops + [op])[..|ops|] == ops;
  }

  /** `capped` counts exactly the offers that were folded. */
  lemma {:induction false} CappedCountsFolded(k: Limits, sh: Shape, ops: seq<Op>)
    requires sh.width > 0
    ensures Run(k, sh, ops).slots.capped == Folded(k, sh, ops)
  {
    if ops != [] {
      var before, op := ops[..|ops| - 1], ops[|ops| - 1];
      CappedCountsFolded(k, sh, before);
      if op.Admit? {
        RunOneMore(k, sh, before, Admit(op.v, 0));
      }
    }
  }

  /** What an offer does to a guard, and what it does not: only an offered value
      can be admitted or renewed, and only if it is shown as itself. */
  lemma OffersShow(k: Limits, sh: Shape, ops: seq<Op>, v: string, now: int, u: string)
    requires sh.width > 0
    ensures var was, is' := Run(k, sh, ops).slots.admitted, Run(k, sh, ops + [Admit(v, now)]).slots.admitted;
            && Label(k, sh, Run(k, sh, ops), v) == (if v == "" then "__none__" else if v in is' then v else "__other__")
            && (u != v ==> (u in is' <==> u in was) && (u in was ==> is'[u] == was[u]))
            && (v in is' ==> is'[v] == now)
            && (v in was ==> v in is')
            && (v in is' && v !in was ==> |was| < k.cap)
  {
    RunOneMore(k, sh, ops, Admit(v, now));
    if v in Run(k, sh, ops + [Admit(v, now)]).slots.admitted {
      TimesAreLatest(k, sh, ops + [Admit(v, now)], v);
    }
  }

  // ---------------------------------------------------------------------
  // Closed dimensions
  // ---------------------------------------------------------------------

  /** The values a run offers, the absent one aside. */
  ghost function Offered(ops: seq<Op>): set<string> {
    set op | op in ops && op.Admit? && op.v != "" :: op.v
  }

  lemma RoomForOneMore(k: Limits, g: Slots, offered: set<string>, v: string)
    requires g.admitted.Keys <= offered && v in offered && |offered| <= k.cap && k.minCount <= 1
    ensures forall est :: est >= 1 ==> Admits(k, g, est, v)
  {
    SubsetIsNoLarger(g.admitted.Keys, offered);
    assert |g.admitted.Keys| == |g.admitted|;
  }

  /** With a threshold of one and no more values than slots, nothing is ever
      folded: every offer gets its own label, whatever decays in between. */
  lemma {:induction false} ClosedDimensionsNeverFold(k: Limits, sh: Shape, ops: seq<Op>, offered: set<string>)
    requires sh.width > 0 && k.minCount <= 1
    requires Offered(ops) <= offered && |offered| <= k.cap
    ensures Run(k, sh, ops).slots.admitted.Keys <= offered
    ensures Run(k, sh, ops).slots.capped == 0
    ensures forall v :: v in offered && v != "" ==> Label(k, sh, Run(k, sh, ops), v) == v
  {
    if ops != [] {
      var before, op := ops[..|ops| - 1], ops[|ops| - 1];
      assert forall o :: o in before ==> o in ops;
      ClosedDimensionsNeverFold(k, sh, before, offered);
      var w := Run(k, sh, before);
      if op.Admit? && op.v != "" {
        assert op.v in Offered(ops);
        assert Label(k, sh, w, op.v) == op.v;
        RoomForOneMore(k, w.slots, offered, op.v);
      }
    }
    var g := Run(k, sh, ops).slots;
    forall v | v in offered && v != ""
      ensures Label(k, sh, Run(k, sh, ops), v) == v
    {
      RoomForOneMore(k, g, offered, v);
    }
  }
}
