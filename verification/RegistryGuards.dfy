/** The guards of the registry are guards: on every run of the registry, each
    guard of a site and the sketch it draws on went through a run of guard
    calls, so what is proved of such runs holds of them. And what follows from
    both path guards drawing on one sketch. */
module RegistryGuards {
  import opened Sketch
  import opened Guard
  import opened Families
  import opened Registry
  import opened RegistryRuns
  import Bounds = SketchBounds
  import Runs = GuardRuns

  /** The guards of a site. */
  datatype Which = Pure | Cross | Own(dim: Dim)

  function GateOf(s: Site, g: Which): Gate
    requires AllDims(s.gates)
  {
    match g
    case Pure => s.pure
    case Cross => s.cross
    case Own(d) => s.gates[d].gate
  }

  function SketchOf(s: Site, g: Which): State
    requires AllDims(s.gates)
  {
    if g.Own? then s.gates[g.dim].sketch else s.pathSketch
  }

  // ---------------------------------------------------------------------
  // What a guard goes through
  // ---------------------------------------------------------------------

  /** What the other path guard adds to the sketch, and what it clears. */
  function Added(v: string): seq<Runs.Op> {
    if v == "" then [] else [Runs.Elsewhere(Bounds.Add(v))]
  }

  function Cleared(gone: set<string>): seq<Runs.Op> {
    if gone == {} then [] else [Runs.Elsewhere(Bounds.Reset)]
  }

  /** What an observation does to a guard and its sketch. */
  function RecordOps(o: Observation, g: Which): seq<Runs.Op> {
    if o.kind.Engagement? then []
    else
      match g
      case Pure => [Runs.Admit(o.path, o.at)] + Added(o.path)
      case Cross => Added(o.path) + [Runs.Admit(o.path, o.at)]
      case Own(d) =>
        if d.Event? then if o.kind.Custom? then [Runs.Admit(o.name, o.at)] else []
        else if o.kind.Pageview? then [Runs.Admit(if d in o.values then o.values[d] else "", o.at)]
        else []
  }

  /** What maintenance does to them. */
  function MaintainOps(s: Site, now: int, g: Which): seq<Runs.Op> {
    var decay := Runs.Decay(now, s.cfg.decayAfter);
    match g
    case Pure => [decay] + Cleared(GoneAt(s, now).cross)
    case Cross => Cleared(GoneAt(s, now).pure) + [decay]
    case Own(_) => [decay]
  }

  function OpsOf(r: Registered, op: Op, site: string, g: Which): seq<Runs.Op> {
    if site !in r.sites then []
    else
      match op
      case Record(o, _) => if o.site == site then RecordOps(o, g) else []
      case Maintain(domain, now) => if domain == site then MaintainOps(r.sites[site], now, g) else []
      case _ => []
  }

  /** Everything a guard of the site goes through. */
  ghost function GuardOps(sh: Shape, ops: seq<Op>, site: string, g: Which): seq<Runs.Op>
    requires sh.width > 0
  {
    if ops == [] then []
    else
      var before := ops[..|ops| - 1];
      GuardOps(sh, before, site, g) + OpsOf(Run(sh, before), ops[|ops| - 1], site, g)
  }

  // ---------------------------------------------------------------------
  // The guards are guards
  // ---------------------------------------------------------------------

  lemma {:induction false} RunInParts(k: Limits, sh: Shape, w: Runs.World, a: seq<Runs.Op>, b: seq<Runs.Op>)
    requires Bounds.WorldOk(sh, w.sketch)
    ensures Runs.RunFrom(k, sh, w, a + b) == Runs.RunFrom(k, sh, Runs.RunFrom(k, sh, w, a), b)
    decreases |b|
  {
    if b == [] {
      assert a + b == a;
    } else {
      var b' := b[..|b| - 1];
      RunInParts(k, sh, w, a, b');
      assert (a + b)[..|a + b| - 1] == a + b';
    }
  }

  lemma RunOne(k: Limits, sh: Shape, w: Runs.World, x: Runs.Op)
    requires Bounds.WorldOk(sh, w.sketch)
    ensures Runs.RunFrom(k, sh, w, [x]) == Runs.Step(k, sh, w, x)
  {
    assert [x][..0] == [];
    assert Runs.RunFrom(k, sh, w, []) == w;
  }

  /** The guard and its sketch are where the run of guard calls is. */
  ghost predicate Agrees(s: Site, g: Which, w: Runs.World)
    requires AllDims(s.gates)
  {
    GateOf(s, g).slots == w.slots && SketchOf(s, g) == w.sketch.s
  }

  lemma AdmitOffers(sh: Shape, g: Gate, w: Runs.World, v: string, now: int)
    requires Bounds.WorldOk(sh, w.sketch) && g.slots == w.slots
    ensures var w' := Runs.RunFrom(g.limits, sh, w, [Runs.Admit(v, now)]);
            var offered := Offer(sh, g, w.sketch.s, v, now);
            && w'.slots == offered.gate.slots && w'.sketch.s == offered.sketch
            && offered.gate.limits == g.limits
            && (v != "" ==> w'.sketch == Bounds.Step(sh, w.sketch, Bounds.Add(v)))
  {
    RunOne(g.limits, sh, w, Runs.Admit(v, now));
  }

  lemma AddedAdds(k: Limits, sh: Shape, w: Runs.World, v: string)
    requires Bounds.WorldOk(sh, w.sketch)
    ensures var w' := Runs.RunFrom(k, sh, w, Added(v));
            && w'.slots == w.slots
            && w'.sketch.s == (if v == "" then w.sketch.s else AfterAdd(sh, w.sketch.s, v))
            && (v != "" ==> w'.sketch == Bounds.Step(sh, w.sketch, Bounds.Add(v)))
  {
    if v != "" {
      RunOne(k, sh, w, Runs.Elsewhere(Bounds.Add(v)));
    }
  }

  lemma ClearedClears(k: Limits, sh: Shape, w: Runs.World, gone: set<string>)
    requires Bounds.WorldOk(sh, w.sketch)
    ensures var w' := Runs.RunFrom(k, sh, w, Cleared(gone));
            w'.slots == w.slots && w'.sketch.s == ResetIf(sh, w.sketch.s, gone)
  {
    if gone != {} {
      RunOne(k, sh, w, Runs.Elsewhere(Bounds.Reset));
    }
  }

  lemma DecayDecays(k: Limits, sh: Shape, w: Runs.World, now: int, after: int)
    requires Bounds.WorldOk(sh, w.sketch)
    ensures var w' := Runs.RunFrom(k, sh, w, [Runs.Decay(now, after)]);
            && w'.slots == AfterDecay(w.slots, now, after)
            && w'.sketch.s == ResetIf(sh, w.sketch.s, Expired(w.slots, now, after))
  {
    RunOne(k, sh, w, Runs.Decay(now, after));
  }

  lemma OfferSketch(sh: Shape, g: Gate, s: State, v: string, now: int)
    requires GridOk(sh, s.grid)
    ensures Offer(sh, g, s, v, now).sketch == if v == "" then s else AfterAdd(sh, s, v)
  {
  }

  lemma PureAgrees(sh: Shape, s: Site, o: Observation, w: Runs.World)
    requires SiteOk(sh, s) && Bounds.WorldOk(sh, w.sketch) && Agrees(s, Pure, w) && !o.kind.Engagement?
    ensures var w' := Runs.RunFrom(s.pure.limits, sh, w, RecordOps(o, Pure));
            && w'.slots == PurePath(sh, s, o).gate.slots && w'.sketch.s == CrossPath(sh, s, o).sketch
            && PurePath(sh, s, o).gate.limits == s.pure.limits
  {
    var k := s.pure.limits;
    RunInParts(k, sh, w, [Runs.Admit(o.path, o.at)], Added(o.path));
    AdmitOffers(sh, s.pure, w, o.path, o.at);
    AddedAdds(k, sh, Runs.RunFrom(k, sh, w, [Runs.Admit(o.path, o.at)]), o.path);
    OfferSketch(sh, s.cross, PurePath(sh, s, o).sketch, o.path, o.at);
  }

  lemma CrossAgrees(sh: Shape, s: Site, o: Observation, w: Runs.World)
    requires SiteOk(sh, s) && Bounds.WorldOk(sh, w.sketch) && Agrees(s, Cross, w) && !o.kind.Engagement?
    ensures var w' := Runs.RunFrom(s.cross.limits, sh, w, RecordOps(o, Cross));
            && w'.slots == CrossPath(sh, s, o).gate.slots && w'.sketch.s == CrossPath(sh, s, o).sketch
            && CrossPath(sh, s, o).gate.limits == s.cross.limits
  {
    var k := s.cross.limits;
    RunInParts(k, sh, w, Added(o.path), [Runs.Admit(o.path, o.at)]);
    AddedAdds(k, sh, w, o.path);
    OfferSketch(sh, s.pure, s.pathSketch, o.path, o.at);
    AdmitOffers(sh, s.cross, Runs.RunFrom(k, sh, w, Added(o.path)), o.path, o.at);
  }

  lemma OwnAgrees(sh: Shape, s: Site, o: Observation, d: Dim, w: Runs.World)
    requires SiteOk(sh, s) && Bounds.WorldOk(sh, w.sketch) && Agrees(s, Own(d), w) && !o.kind.Engagement?
    ensures var g, w' := s.gates[d], Runs.RunFrom(s.gates[d].gate.limits, sh, w, RecordOps(o, Own(d)));
            && w'.slots == RecordedGate(sh, g, o, d).gate.slots && w'.sketch.s == RecordedGate(sh, g, o, d).sketch
            && RecordedGate(sh, g, o, d).gate.limits == g.gate.limits
  {
    AdmitOffers(sh, s.gates[d].gate, w, ValueOf(o, d), o.at);
  }

  lemma RecordAgrees(sh: Shape, s: Site, o: Observation, g: Which, w: Runs.World)
    requires SiteOk(sh, s) && Bounds.WorldOk(sh, w.sketch) && Agrees(s, g, w)
    ensures SiteOk(sh, Recorded(sh, s, o))
    ensures Agrees(Recorded(sh, s, o), g, Runs.RunFrom(GateOf(s, g).limits, sh, w, RecordOps(o, g)))
    ensures GateOf(Recorded(sh, s, o), g).limits == GateOf(s, g).limits
  {
    RecordedIsOk(sh, s, o);
    if !o.kind.Engagement? {
      match g
      case Pure => PureAgrees(sh, s, o, w);
      case Cross => CrossAgrees(sh, s, o, w);
      case Own(d) => OwnAgrees(sh, s, o, d, w);
    }
  }

  lemma MaintainAgrees(sh: Shape, s: Site, now: int, g: Which, w: Runs.World)
    requires SiteOk(sh, s) && Bounds.WorldOk(sh, w.sketch) && Agrees(s, g, w)
    ensures SiteOk(sh, Decayed(sh, s, now))
    ensures Agrees(Decayed(sh, s, now), g, Runs.RunFrom(GateOf(s, g).limits, sh, w, MaintainOps(s, now, g)))
    ensures GateOf(Decayed(sh, s, now), g).limits == GateOf(s, g).limits
  {
    var k := GateOf(s, g).limits;
    var gone, after := GoneAt(s, now), s.cfg.decayAfter;
    DecayedIsOk(sh, s, now);
    match g
    case Pure =>
      RunInParts(k, sh, w, [Runs.Decay(now, after)], Cleared(gone.cross));
      DecayDecays(k, sh, w, now, after);
      ClearedClears(k, sh, Runs.RunFrom(k, sh, w, [Runs.Decay(now, after)]), gone.cross);
    case Cross =>
      RunInParts(k, sh, w, Cleared(gone.pure), [Runs.Decay(now, after)]);
      ClearedClears(k, sh, w, gone.pure);
      DecayDecays(k, sh, Runs.RunFrom(k, sh, w, Cleared(gone.pure)), now, after);
    case Own(d) =>
      DecayDecays(k, sh, w, now, after);
  }

  lemma StepAgrees(sh: Shape, r: Registered, op: Op, site: string, g: Which, w: Runs.World)
    requires Ok(sh, r) && site in r.sites && Bounds.WorldOk(sh, w.sketch) && Agrees(r.sites[site], g, w)
    ensures var r' := Step(sh, r, op);
            && site in r'.sites && AllDims(r'.sites[site].gates)
            && GateOf(r'.sites[site], g).limits == GateOf(r.sites[site], g).limits
            && Agrees(r'.sites[site], g,
                      Runs.RunFrom(GateOf(r.sites[site], g).limits, sh, w, OpsOf(r, op, site, g)))
  {
    assert SiteOk(sh, r.sites[site]);
    if op.Record? && op.o.site == site {
      RecordAgrees(sh, r.sites[site], op.o, g, w);
    } else if op.Maintain? && op.domain == site {
      MaintainAgrees(sh, r.sites[site], op.now, g, w);
    }
  }

  lemma NewSiteAgrees(sh: Shape, c: Config, g: Which)
    requires sh.width > 0
    ensures AllDims(NewSite(sh, c).gates)
    ensures Agrees(NewSite(sh, c), g, Runs.Run(GateOf(NewSite(sh, c), g).limits, sh, []))
  {
    NewSiteIsOk(sh, c);
  }

  lemma SiteAppears(sh: Shape, r: Registered, op: Op, site: string)
    requires Ok(sh, r) && site !in r.sites && site in Step(sh, r, op).sites
    ensures op.Configure? && Step(sh, r, op).sites[site] == NewSite(sh, op.c)
  {
  }

  /** Where the guard's run of guard calls is. */
  ghost function GuardWorld(sh: Shape, ops: seq<Op>, site: string, g: Which): (w: Runs.World)
    requires sh.width > 0 && site in Run(sh, ops).sites
    ensures Bounds.WorldOk(sh, w.sketch)
  {
    assert SiteOk(sh, Run(sh, ops).sites[site]);
    Runs.Run(GateOf(Run(sh, ops).sites[site], g).limits, sh, GuardOps(sh, ops, site, g))
  }

  lemma GuardRunGoesOn(k: Limits, sh: Shape, before: seq<Runs.Op>, more: seq<Runs.Op>)
    requires sh.width > 0
    ensures Runs.Run(k, sh, before + more) == Runs.RunFrom(k, sh, Runs.Run(k, sh, before), more)
  {
    RunInParts(k, sh, Runs.World(NO_SLOTS, Bounds.Run(sh, [])), before, more);
  }

  lemma {:induction false} NoCallsBeforeTheSite(sh: Shape, ops: seq<Op>, site: string, g: Which)
    requires sh.width > 0 && site !in Run(sh, ops).sites
    ensures GuardOps(sh, ops, site, g) == []
  {
    if ops != [] {
      var before, op := ops[..|ops| - 1], ops[|ops| - 1];
      StepConfigures(sh, Run(sh, before), op);
      NoCallsBeforeTheSite(sh, before, site, g);
    }
  }

  /** On every run, each guard of a site and its sketch are where a run of guard
      calls takes them, other users of the sketch included. */
  lemma {:induction false} GuardsAreRuns(sh: Shape, ops: seq<Op>, site: string, g: Which)
    requires sh.width > 0 && site in Run(sh, ops).sites
    ensures SiteOk(sh, Run(sh, ops).sites[site])
    ensures Agrees(Run(sh, ops).sites[site], g, GuardWorld(sh, ops, site, g))
  {
    if ops != [] {
      var before, op := ops[..|ops| - 1], ops[|ops| - 1];
      var r := Run(sh, before);
      if site in r.sites {
        GuardsAreRuns(sh, before, site, g);
        StepAgrees(sh, r, op, site, g, GuardWorld(sh, before, site, g));
        GuardRunGoesOn(
          GateOf(r.sites[site], g).limits, sh, GuardOps(sh, before, site, g), OpsOf(r, op, site, g));
      } else {
        NoCallsBeforeTheSite(sh, before, site, g);
        SiteAppears(sh, r, op, site);
        NewSiteAgrees(sh, op.c, g);
        assert GuardOps(sh, ops, site, g) == [] + [];
      }
    }
  }

  // ---------------------------------------------------------------------
  // What follows
  // ---------------------------------------------------------------------

  /** Everything that a guard's sketch goes through. */
  ghost function SketchOps(sh: Shape, ops: seq<Op>, site: string, g: Which): seq<Bounds.Op>
    requires sh.width > 0 && site in Run(sh, ops).sites
  {
    assert SiteOk(sh, Run(sh, ops).sites[site]);
    Runs.AllSketchOps(GateOf(Run(sh, ops).sites[site], g).limits, sh, GuardOps(sh, ops, site, g))
  }

  lemma SketchesAreRuns(sh: Shape, ops: seq<Op>, site: string, g: Which)
    requires sh.width > 0 && site in Run(sh, ops).sites
    ensures SiteOk(sh, Run(sh, ops).sites[site])
    ensures GuardWorld(sh, ops, site, g).sketch == Bounds.Run(sh, SketchOps(sh, ops, site, g))
    ensures SketchOf(Run(sh, ops).sites[site], g) == Bounds.Run(sh, SketchOps(sh, ops, site, g)).s
  {
    GuardsAreRuns(sh, ops, site, g);
    Runs.RunDrivesTheSketch(
      GateOf(Run(sh, ops).sites[site], g).limits, sh, GuardOps(sh, ops, site, g));
  }

  /** The noise floor holds of every sketch of every site on every run, and none
      of them ever saturates. */
  lemma SketchesStayQuiet(sh: Shape, ops: seq<Op>, site: string, g: Which, i: nat, k: nat, v: string)
    requires sh.width > 0 && i < sh.depth && 2 * sh.width <= MAX32 && site in Run(sh, ops).sites
    ensures SiteOk(sh, Run(sh, ops).sites[site])
    ensures var row := SketchOf(Run(sh, ops).sites[site], g).grid[i];
            && Bounds.Sum(row) <= 2 * sh.width - 1
            && k * Bounds.AtLeast(row, k) < 2 * sh.width
            && (exists c :: 0 <= c < sh.width && row[c] <= 1)
    ensures Estimate(sh, SketchOf(Run(sh, ops).sites[site], g), v) <= 2 * sh.width
  {
    SketchesAreRuns(sh, ops, site, g);
    Bounds.NoiseFloor(sh, SketchOps(sh, ops, site, g), i, k);
    Bounds.NeverSaturates(sh, SketchOps(sh, ops, site, g), v);
  }

  /** How often a value was added to a guard's sketch, aged as the sketch ages. */
  ghost function AgedCount(w: Bounds.World, v: string): nat {
    Bounds.Count(w.truth, v)
  }

  lemma EstimateCoversCount(sh: Shape, ops: seq<Bounds.Op>, v: string)
    requires sh.width > 0 && sh.depth > 0 && 2 * sh.width <= MAX32
    ensures Estimate(sh, Bounds.Run(sh, ops).s, v)
            >= AgedCount(Bounds.Step(sh, Bounds.Run(sh, ops), Bounds.Add(v)), v)
  {
    assert (ops + [Bounds.Add(v)])[..|ops|] == ops;
    Bounds.EstimateIsAnUpperBound(sh, ops, v);
  }

  /** In the registry, too, frequent values get in: an observation whose value
      has reached the threshold in aged sightings, this one included, is shown
      as itself as soon as its dimension has a free slot. */
  lemma FrequentValuesGetIn(sh: Shape, ops: seq<Op>, o: Observation, d: Dim, v: string)
    requires sh.width > 0 && sh.depth > 0 && 2 * sh.width <= MAX32 && o.site in Run(sh, ops).sites
    requires v != "" && if d.Event? then v == o.name else d in o.values && o.values[d] == v
    requires var gate := Run(sh, ops).sites[o.site].gates[d].gate;
             var seen := Bounds.Step(sh, GuardWorld(sh, ops, o.site, Own(d)).sketch, Bounds.Add(v));
             |gate.slots.admitted| < gate.limits.cap && AgedCount(seen, v) >= gate.limits.minCount
    ensures ValueLabel(sh, Run(sh, ops), o, d) == v
  {
    SketchesAreRuns(sh, ops, o.site, Own(d));
    EstimateCoversCount(sh, SketchOps(sh, ops, o.site, Own(d)), v);
  }

  /** Frequent paths get in with the pure guard. */
  lemma FrequentPathsGetIn(sh: Shape, ops: seq<Op>, o: Observation)
    requires sh.width > 0 && sh.depth > 0 && 2 * sh.width <= MAX32 && o.site in Run(sh, ops).sites
    requires o.path != ""
    requires var gate := Run(sh, ops).sites[o.site].pure;
             var seen := Bounds.Step(sh, GuardWorld(sh, ops, o.site, Pure).sketch, Bounds.Add(o.path));
             |gate.slots.admitted| < gate.limits.cap && AgedCount(seen, o.path) >= gate.limits.minCount
    ensures PurePath(sh, Run(sh, ops).sites[o.site], o).shown == o.path
  {
    SketchesAreRuns(sh, ops, o.site, Pure);
    EstimateCoversCount(sh, SketchOps(sh, ops, o.site, Pure), o.path);
  }

  /** And with the cross guard, which sees each of them twice. */
  lemma FrequentPathsGetAcross(sh: Shape, ops: seq<Op>, o: Observation)
    requires sh.width > 0 && sh.depth > 0 && 2 * sh.width <= MAX32 && o.site in Run(sh, ops).sites
    requires o.path != ""
    requires var gate := Run(sh, ops).sites[o.site].cross;
             var once := Bounds.Step(sh, GuardWorld(sh, ops, o.site, Cross).sketch, Bounds.Add(o.path));
             var twice := Bounds.Step(sh, once, Bounds.Add(o.path));
             |gate.slots.admitted| < gate.limits.cap && AgedCount(twice, o.path) >= gate.limits.minCount
    ensures CrossLabel(sh, Run(sh, ops), o) == o.path
  {
    SketchesAreRuns(sh, ops, o.site, Cross);
    var before := SketchOps(sh, ops, o.site, Cross);
    assert (before + [Bounds.Add(o.path)])[..|before|] == before;
    EstimateCoversCount(sh, before + [Bounds.Add(o.path)], o.path);
  }

  // ---------------------------------------------------------------------
  // One path, two judgements
  // ---------------------------------------------------------------------

  /** The estimate that the pure guard judges an observation's path by. */
  function PureEstimate(sh: Shape, s: Site, path: string): nat
    requires SiteOk(sh, s)
  {
    Estimate(sh, s.pathSketch, path)
  }

  /** And the one that the cross guard does: the path has been counted again. */
  function CrossEstimate(sh: Shape, s: Site, path: string): nat
    requires SiteOk(sh, s)
  {
    if Bounds.Halves(sh, AfterAdd(sh, s.pathSketch, path)) then PureEstimate(sh, s, path) / 2 + 1
    else PureEstimate(sh, s, path) + 1
  }

  /** Both path guards would admit a path, or neither would. */
  predicate AdmittedAlike(sh: Shape, s: Site, path: string)
    requires SiteOk(sh, s)
  {
    Admits(s.pure.limits, s.pure.slots, PureEstimate(sh, s, path), path)
    <==> Admits(s.cross.limits, s.cross.slots, CrossEstimate(sh, s, path), path)
  }

  lemma PathLabels(sh: Shape, s: Site, o: Observation)
    requires SiteOk(sh, s) && sh.depth > 0 && o.path != "" && PureEstimate(sh, s, o.path) < MAX32
    ensures PurePath(sh, s, o).shown
            == if Admits(s.pure.limits, s.pure.slots, PureEstimate(sh, s, o.path), o.path) then o.path else OTHER
    ensures CrossPath(sh, s, o).shown
            == if Admits(s.cross.limits, s.cross.slots, CrossEstimate(sh, s, o.path), o.path) then o.path else OTHER
  {
    Bounds.SecondEstimate(sh, s.pathSketch, o.path);
  }

  /** The two guards show an observation's path alike if and only if both admit
      it or neither does, the cross guard going by the second count (apart from
      the paths that look alike either way). */
  lemma JudgedAlikeIff(sh: Shape, s: Site, o: Observation)
    requires SiteOk(sh, s) && sh.depth > 0 && PureEstimate(sh, s, o.path) < MAX32
    ensures PurePath(sh, s, o).shown == CrossPath(sh, s, o).shown
            <==> o.path == "" || o.path == OTHER || AdmittedAlike(sh, s, o.path)
  {
    if o.path != "" {
      PathLabels(sh, s, o);
    }
  }

  /** On every run of the registry; its sketches do not saturate. */
  lemma PathsAreJudgedAlikeIff(sh: Shape, ops: seq<Op>, o: Observation)
    requires sh.width > 0 && sh.depth > 0 && 2 * sh.width < MAX32 && o.site in Run(sh, ops).sites
    ensures SiteOk(sh, Run(sh, ops).sites[o.site])
    ensures var s := Run(sh, ops).sites[o.site];
            PurePath(sh, s, o).shown == CrossPath(sh, s, o).shown
            <==> o.path == "" || o.path == OTHER || AdmittedAlike(sh, s, o.path)
  {
    SketchesStayQuiet(sh, ops, o.site, Pure, 0, 0, o.path);
    JudgedAlikeIff(sh, Run(sh, ops).sites[o.site], o);
  }

  /** For a path that is new to both guards, with room in both and one threshold
      for both: it is folded by one and shown by the other exactly when the
      second count is the one that reaches the threshold, or when the halving
      falls in between and takes it below the threshold again. */
  lemma NewPathIsSplitIff(sh: Shape, s: Site, o: Observation)
    requires SiteOk(sh, s) && sh.depth > 0 && PureEstimate(sh, s, o.path) < MAX32
    requires o.path != "" && o.path != OTHER
    requires o.path !in s.pure.slots.admitted && o.path !in s.cross.slots.admitted
    requires |s.pure.slots.admitted| < s.pure.limits.cap && |s.cross.slots.admitted| < s.cross.limits.cap
    requires s.pure.limits.minCount == s.cross.limits.minCount
    ensures var min, est := s.pure.limits.minCount, PureEstimate(sh, s, o.path);
            PurePath(sh, s, o).shown != CrossPath(sh, s, o).shown
            <==> if Bounds.Halves(sh, AfterAdd(sh, s.pathSketch, o.path))
                 then est / 2 + 1 < min <= est || est < min <= est / 2 + 1
                 else est + 1 == min
  {
    JudgedAlikeIff(sh, s, o);
  }

  lemma FirstAdditionDoesNotHalve(sh: Shape, v: string)
    requires sh.width > 2 && GridOk(sh, Zeros(sh))
    ensures !Bounds.Halves(sh, AfterAdd(sh, State(Zeros(sh), 0), v))
  {
  }

  /** With a threshold of two, the first page view of a path on a fresh site is
      folded in the path family and shown in every path-labelled one. */
  lemma FirstViewIsSplit(sh: Shape, c: Config, o: Observation, isNew: bool, d: Dim)
    requires sh.width > 2 && sh.depth > 0 && c.admitMinCount == 2
    requires o.kind.Pageview? && o.path != "" && o.path != OTHER && !d.Event? && d in c.pathLabels
    ensures SiteOk(sh, NewSite(sh, c))
    ensures CountedIn(sh, NewSite(sh, c), o, isNew, Pageviews) == Some(Series(o.site, [], OTHER))
    ensures CountedIn(sh, NewSite(sh, c), o, isNew, By(d)).Some?
    ensures CountedIn(sh, NewSite(sh, c), o, isNew, By(d)).value.path == o.path
  {
    NewSiteIsOk(sh, c);
    FirstAdditionDoesNotHalve(sh, o.path);
    Bounds.FirstEstimate(sh, o.path);
    PathLabels(sh, NewSite(sh, c), o);
  }

  lemma FirstConfigured(sh: Shape, c: Config)
    requires sh.width > 0
    ensures c.domain in Run(sh, [Configure(c)]).sites
    ensures Run(sh, [Configure(c)]).sites[c.domain] == NewSite(sh, c)
  {
    assert [Configure(c)][..0] == [];
  }

  lemma CountedShows(sh: Shape, r: Registered, o: Observation, isNew: bool, n: Name)
    requires Ok(sh, r) && o.site in r.sites && CountedIn(sh, r.sites[o.site], o, isNew, n).Some?
    ensures CountedIn(sh, r.sites[o.site], o, isNew, n).value in Of(AfterRecord(sh, r, o, isNew).vecs, n)
  {
    RecordChangesFamily(sh, r, o, isNew, n);
  }

  lemma SecondOfTwo(sh: Shape, first: Op, second: Op)
    requires sh.width > 0
    ensures Run(sh, [first, second]) == Step(sh, Run(sh, [first]), second)
  {
    assert [first, second][..1] == [first];
  }

  /** So there is a run of two calls after which the families disagree on which
      paths there are, for every such configuration and page view. */
  lemma FamiliesCanDisagree(sh: Shape, c: Config, o: Observation, isNew: bool, d: Dim) returns (k: Series)
    requires sh.width > 2 && sh.depth > 0 && c.admitMinCount == 2 && o.site == c.domain
    requires o.kind.Pageview? && o.path != "" && o.path != OTHER && !d.Event? && d in c.pathLabels
    ensures var v := Run(sh, [Configure(c), Record(o, isNew)]).vecs;
            && Series(c.domain, [], OTHER) in Of(v, Pageviews)
            && k.path == o.path && k in Of(v, By(d))
  {
    var r := Run(sh, [Configure(c)]);
    SecondOfTwo(sh, Configure(c), Record(o, isNew));
    FirstConfigured(sh, c);
    FirstViewIsSplit(sh, c, o, isNew, d);
    CountedShows(sh, r, o, isNew, Pageviews);
    CountedShows(sh, r, o, isNew, By(d));
    k := CountedIn(sh, NewSite(sh, c), o, isNew, By(d)).value;
  }

  lemma GuardWorldGoesOn(sh: Shape, ops: seq<Op>, op: Op, site: string, g: Which)
    requires sh.width > 0 && site in Run(sh, ops).sites
    ensures SiteOk(sh, Run(sh, ops).sites[site]) && site in Run(sh, ops + [op]).sites
    ensures GuardWorld(sh, ops + [op], site, g)
            == Runs.RunFrom(
                 GateOf(Run(sh, ops).sites[site], g).limits, sh, GuardWorld(sh, ops, site, g),
                 OpsOf(Run(sh, ops), op, site, g))
  {
    var r := Run(sh, ops);
    assert SiteOk(sh, r.sites[site]);
    assert (ops + [op])[..|ops|] == ops;
    GuardsAreRuns(sh, ops, site, g);
    StepAgrees(sh, r, op, site, g, GuardWorld(sh, ops, site, g));
    GuardRunGoesOn(GateOf(r.sites[site], g).limits, sh, GuardOps(sh, ops, site, g), OpsOf(r, op, site, g));
  }

  lemma RecordAddsTwice(sh: Shape, g: Gate, w: Runs.World, o: Observation)
    requires Bounds.WorldOk(sh, w.sketch) && g.slots == w.slots && !o.kind.Engagement? && o.path != ""
    ensures Runs.RunFrom(g.limits, sh, w, RecordOps(o, Pure)).sketch
            == Bounds.Step(sh, Bounds.Step(sh, w.sketch, Bounds.Add(o.path)), Bounds.Add(o.path))
  {
    RunInParts(g.limits, sh, w, [Runs.Admit(o.path, o.at)], Added(o.path));
    AdmitOffers(sh, g, w, o.path, o.at);
    AddedAdds(g.limits, sh, Runs.RunFrom(g.limits, sh, w, [Runs.Admit(o.path, o.at)]), o.path);
  }

  /** Every observation with a path adds two to the path's aged count, but for
      what a halving takes away. */
  lemma PathsCountTwice(sh: Shape, ops: seq<Op>, o: Observation, isNew: bool)
    requires sh.width > 2 && o.site in Run(sh, ops).sites && !o.kind.Engagement? && o.path != ""
    ensures o.site in Run(sh, ops + [Record(o, isNew)]).sites
    ensures var w, w' := GuardWorld(sh, ops, o.site, Pure).sketch,
                         GuardWorld(sh, ops + [Record(o, isNew)], o.site, Pure).sketch;
            AgedCount(w', o.path)
            == if Bounds.Halves(sh, w.s) then AgedCount(w, o.path) / 2 + 2
               else if Bounds.Halves(sh, AfterAdd(sh, w.s, o.path)) then (AgedCount(w, o.path) + 1) / 2 + 1
               else AgedCount(w, o.path) + 2
  {
    GuardWorldGoesOn(sh, ops, Record(o, isNew), o.site, Pure);
    GuardsAreRuns(sh, ops, o.site, Pure);
    RecordAddsTwice(sh, Run(sh, ops).sites[o.site].pure, GuardWorld(sh, ops, o.site, Pure), o);
    Bounds.SecondCount(sh, GuardWorld(sh, ops, o.site, Pure).sketch, o.path);
  }

  /** A maintenance that drops anything from either path guard clears the sketch
      of both, and leaves its count of additions alone. */
  lemma EitherDecayClearsBoth(sh: Shape, s: Site, now: int)
    requires SiteOk(sh, s)
    ensures Decayed(sh, s, now).pathSketch
            == if GoneAt(s, now).pure == {} && GoneAt(s, now).cross == {} then s.pathSketch
               else State(Zeros(sh), s.pathSketch.adds)
  {
  }
}
