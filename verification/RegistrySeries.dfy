/** Series stay within the admitted sets: on every run, each series of a family
    carries only labels its guards admit at that moment, or sentinels, so their
    number is bounded by the caps. */
module RegistrySeries {
  import opened Bags
  import opened Sketch
  import opened Guard
  import opened Families
  import opened Registry
  import opened RegistryRuns

  const FOLDED := {OTHER, NONE}

  /** Whether a series of the site has labels that its guards currently stand for. */
  ghost predicate Tracked(s: Site, n: Name, k: Series) {
    match n
    case Pageviews => k.labels == [] && k.path in s.pure.slots.admitted.Keys + FOLDED
    case Entries => k.labels == [] && k.path in s.pure.slots.admitted.Keys + FOLDED
    case Exits => true
    case TimeOnPage => k.labels == [] && k.path in s.cross.slots.admitted.Keys + FOLDED
    case By(d) =>
      && d in s.gates
      && k.labels != []
      && k.labels[0] in s.gates[d].gate.slots.admitted.Keys + FOLDED
      && k.path in s.cross.slots.admitted.Keys + FOLDED + {ALL}
  }

  ghost predicate WithinCap(g: Gate) {
    |g.slots.admitted| <= g.limits.cap
  }

  ghost predicate SiteTracked(s: Site) {
    && WithinCap(s.pure) && WithinCap(s.cross)
    && (forall d :: d in s.gates ==> WithinCap(s.gates[d].gate))
    && s.pathUniques <= s.cross.slots.admitted.Keys
  }

  /** The exits family is left out: a live session can keep the label of a path
      that has decayed. */
  ghost predicate AllTracked(r: Registered) {
    && (forall d :: d in r.sites ==> SiteTracked(r.sites[d]))
    && (forall n: Name, k :: !n.Exits? && k in Of(r.vecs, n) ==> k.site in r.sites && Tracked(r.sites[k.site], n, k))
  }

  // ---------------------------------------------------------------------
  // Offers
  // ---------------------------------------------------------------------

  ghost predicate Grows(g: Gate, g': Gate) {
    && g'.limits == g.limits
    && g.slots.admitted.Keys <= g'.slots.admitted.Keys
    && (WithinCap(g) ==> WithinCap(g'))
  }

  lemma OfferGrows(sh: Shape, g: Gate, s: State, v: string, now: int)
    requires GridOk(sh, s.grid)
    ensures Grows(g, Offer(sh, g, s, v, now).gate)
    ensures Offer(sh, g, s, v, now).shown in Offer(sh, g, s, v, now).gate.slots.admitted.Keys + FOLDED
  {
    if v in g.slots.admitted {
      assert g.slots.admitted[v := now].Keys == g.slots.admitted.Keys;
      assert |g.slots.admitted[v := now]| == |g.slots.admitted[v := now].Keys|;
      assert |g.slots.admitted| == |g.slots.admitted.Keys|;
    }
  }

  /** Everything a site admits it goes on admitting after an observation. */
  ghost predicate SiteGrows(s: Site, s': Site) {
    && Grows(s.pure, s'.pure)
    && Grows(s.cross, s'.cross)
    && s'.gates.Keys == s.gates.Keys
    && (forall d :: d in s.gates ==> Grows(s.gates[d].gate, s'.gates[d].gate))
  }

  lemma GateGrows(sh: Shape, g: OwnGate, o: Observation, d: Dim)
    requires GridOk(sh, g.sketch.grid)
    ensures Grows(g.gate, RecordedGate(sh, g, o, d).gate)
    ensures CountsFor(d, o.kind) ==>
              OfferOwn(sh, g, ValueOf(o, d), o.at).shown
              in RecordedGate(sh, g, o, d).gate.slots.admitted.Keys + FOLDED
  {
    OfferGrows(sh, g.gate, g.sketch, ValueOf(o, d), o.at);
  }

  lemma RecordedGrows(sh: Shape, s: Site, o: Observation)
    requires SiteOk(sh, s)
    ensures SiteGrows(s, Recorded(sh, s, o))
  {
    OfferGrows(sh, s.pure, s.pathSketch, o.path, o.at);
    OfferGrows(sh, s.cross, PurePath(sh, s, o).sketch, o.path, o.at);
    forall d | d in s.gates
      ensures Grows(s.gates[d].gate, RecordedGate(sh, s.gates[d], o, d).gate)
    {
      GateGrows(sh, s.gates[d], o, d);
    }
  }

  lemma RecordedStaysTracked(sh: Shape, s: Site, o: Observation)
    requires SiteOk(sh, s) && SiteTracked(s)
    ensures SiteTracked(Recorded(sh, s, o))
  {
    RecordedGrows(sh, s, o);
    OfferGrows(sh, s.cross, PurePath(sh, s, o).sketch, o.path, o.at);
  }

  lemma TrackedGrows(s: Site, s': Site, n: Name, k: Series)
    requires SiteGrows(s, s') && Tracked(s, n, k)
    ensures Tracked(s', n, k)
  {
  }

  lemma CountedPathsAreTracked(sh: Shape, s: Site, o: Observation, isNew: bool, n: Name)
    requires SiteOk(sh, s) && !n.By? && CountedIn(sh, s, o, isNew, n).Some?
    ensures Tracked(Recorded(sh, s, o), n, CountedIn(sh, s, o, isNew, n).value)
  {
    OfferGrows(sh, s.pure, s.pathSketch, o.path, o.at);
  }

  lemma CountedDimsAreTracked(sh: Shape, s: Site, o: Observation, isNew: bool, d: Dim)
    requires SiteOk(sh, s) && CountedIn(sh, s, o, isNew, By(d)).Some?
    ensures Tracked(Recorded(sh, s, o), By(d), CountedIn(sh, s, o, isNew, By(d)).value)
  {
    GateGrows(sh, s.gates[d], o, d);
    OfferGrows(sh, s.cross, PurePath(sh, s, o).sketch, o.path, o.at);
  }

  lemma RecordKeepsTracking(sh: Shape, r: Registered, o: Observation, isNew: bool)
    requires Ok(sh, r) && AllTracked(r)
    ensures AllTracked(AfterRecord(sh, r, o, isNew))
  {
    if o.site in r.sites {
      var s := r.sites[o.site];
      var r' := AfterRecord(sh, r, o, isNew);
      RecordedStaysTracked(sh, s, o);
      RecordedGrows(sh, s, o);
      forall n: Name, k | !n.Exits? && k in Of(r'.vecs, n)
        ensures k.site in r'.sites && Tracked(r'.sites[k.site], n, k)
      {
        RecordChangesFamily(sh, r, o, isNew, n);
        if k in Of(r.vecs, n) {
          if k.site == o.site {
            TrackedGrows(s, Recorded(sh, s, o), n, k);
          }
        } else if n.By? {
          CountedDimsAreTracked(sh, s, o, isNew, n.dim);
        } else {
          CountedPathsAreTracked(sh, s, o, isNew, n);
        }
      }
    }
  }

  // ---------------------------------------------------------------------
  // Maintenance
  // ---------------------------------------------------------------------

  lemma DecayedStaysWithinCap(g: Gate, now: int, after: int)
    requires WithinCap(g)
    ensures WithinCap(DecayGate(g, now, after))
    ensures DecayGate(g, now, after).slots.admitted.Keys == g.slots.admitted.Keys - Expired(g.slots, now, after)
  {
    var left := AfterDecay(g.slots, now, after).admitted;
    assert g.slots.admitted.Keys == left.Keys + (g.slots.admitted.Keys - left.Keys);
    assert |left| == |left.Keys| && |g.slots.admitted| == |g.slots.admitted.Keys|;
  }

  lemma DecayedStaysTracked(sh: Shape, s: Site, now: int)
    requires SiteTracked(s)
    ensures SiteTracked(Decayed(sh, s, now))
  {
    DecayedStaysWithinCap(s.pure, now, s.cfg.decayAfter);
    DecayedStaysWithinCap(s.cross, now, s.cfg.decayAfter);
    forall d | d in s.gates
      ensures WithinCap(DecayGate(s.gates[d].gate, now, s.cfg.decayAfter))
    {
      DecayedStaysWithinCap(s.gates[d].gate, now, s.cfg.decayAfter);
    }
  }

  /** What maintenance leaves has labels that the guards kept. */
  lemma SurvivorsAreTracked(sh: Shape, s: Site, now: int, n: Name, k: Series)
    requires Tracked(s, n, k) && !n.Exits? && !Dead(GoneAt(s, now), n, k)
    ensures Tracked(Decayed(sh, s, now), n, k)
  {
  }

  lemma SurvivorsWereThere(v: Vecs, domain: string, g: Gone, n: Name, k: Series)
    requires k in Of(Purged(v, domain, g), n)
    ensures k in Of(v, n) && (k.site == domain ==> !Dead(g, n, k))
  {
  }

  lemma MaintainKeepsTracking(sh: Shape, r: Registered, domain: string, now: int)
    requires Ok(sh, r) && AllTracked(r) && domain in r.sites
    ensures AllTracked(Maintained(sh, r, domain, now))
  {
    var s := r.sites[domain];
    var r' := Maintained(sh, r, domain, now);
    DecayedStaysTracked(sh, s, now);
    forall n: Name, k | !n.Exits? && k in Of(r'.vecs, n)
      ensures k.site in r'.sites && Tracked(r'.sites[k.site], n, k)
    {
      SurvivorsWereThere(r.vecs, domain, GoneAt(s, now), n, k);
      if k.site == domain {
        SurvivorsAreTracked(sh, s, now, n, k);
      }
    }
  }

  // ---------------------------------------------------------------------
  // Runs
  // ---------------------------------------------------------------------

  lemma NewSiteIsTracked(sh: Shape, c: Config)
    ensures SiteTracked(NewSite(sh, c))
  {
  }

  lemma ConfigureKeepsTracking(sh: Shape, r: Registered, c: Config)
    requires AllTracked(r)
    ensures AllTracked(r.(sites := Configured(sh, r.sites, c)))
  {
    NewSiteIsTracked(sh, c);
    var r' := r.(sites := Configured(sh, r.sites, c));
    forall n: Name, k | !n.Exits? && k in Of(r'.vecs, n)
      ensures k.site in r'.sites && Tracked(r'.sites[k.site], n, k)
    {
      assert k in Of(r.vecs, n);
    }
  }

  lemma StepKeepsTracking(sh: Shape, r: Registered, op: Op)
    requires Ok(sh, r) && AllTracked(r)
    ensures AllTracked(Step(sh, r, op))
  {
    match op
    case Record(o, isNew) => RecordKeepsTracking(sh, r, o, isNew);
    case Maintain(domain, now) =>
      if domain in r.sites {
        MaintainKeepsTracking(sh, r, domain, now);
      }
    case Configure(c) => ConfigureKeepsTracking(sh, r, c);
    case Started(_) =>
    case Ended(_, _) =>
      forall n: Name, k | !n.Exits? && k in Of(Step(sh, r, op).vecs, n)
        ensures k in Of(r.vecs, n)
      {
      }
  }

  /** On every run, every series but those of the exits family has labels that
      are currently admitted or sentinels, no guard is over its cap, and the
      per-path sketches belong to admitted paths. */
  lemma {:induction false} SeriesStayAdmitted(sh: Shape, ops: seq<Op>)
    requires sh.width > 0
    ensures AllTracked(Run(sh, ops))
  {
    if ops != [] {
      SeriesStayAdmitted(sh, ops[..|ops| - 1]);
      StepKeepsTracking(sh, Run(sh, ops[..|ops| - 1]), ops[|ops| - 1]);
    }
  }

  // ---------------------------------------------------------------------
  // The bound
  // ---------------------------------------------------------------------

  /** The organisation label that goes with a network label, if every network
      belongs to one organisation. */
  function OrgOf(org: string -> string, asn: string): string {
    if asn == OTHER || asn == NONE then asn
    else if org(asn) == "" then NONE
    else org(asn)
  }

  function LabelsFor(org: string -> string, d: Dim, first: string): seq<string> {
    if d.Asn? then [first, OrgOf(org, first)] else [first]
  }

  function Network(o: Observation): string {
    if Asn in o.values then o.values[Asn] else ""
  }

  ghost predicate OneOrgEach(ops: seq<Op>, org: string -> string) {
    forall op :: op in ops && op.Record? ==> op.o.asOrg == org(Network(op.o))
  }

  /** The first own label of a series decides the others. */
  ghost predicate FirstDecides(r: Registered, org: string -> string) {
    forall d: Dim, k :: k in Of(r.vecs, By(d)) ==> k.labels != [] && k.labels == LabelsFor(org, d, k.labels[0])
  }

  lemma CountedFirstDecides(sh: Shape, s: Site, o: Observation, isNew: bool, d: Dim, org: string -> string)
    requires SiteOk(sh, s) && CountedIn(sh, s, o, isNew, By(d)).Some? && o.asOrg == org(Network(o))
    ensures var k := CountedIn(sh, s, o, isNew, By(d)).value;
            k.labels != [] && k.labels == LabelsFor(org, d, k.labels[0])
  {
  }

  lemma StepKeepsFirstDecides(sh: Shape, r: Registered, op: Op, org: string -> string)
    requires Ok(sh, r) && FirstDecides(r, org)
    requires op.Record? ==> op.o.asOrg == org(Network(op.o))
    ensures FirstDecides(Step(sh, r, op), org)
  {
    forall d: Dim, k | k in Of(Step(sh, r, op).vecs, By(d))
      ensures k.labels != [] && k.labels == LabelsFor(org, d, k.labels[0])
    {
      match op
      case Record(o, isNew) =>
        RecordChangesFamily(sh, r, o, isNew, By(d));
        if k !in Of(r.vecs, By(d)) {
          CountedFirstDecides(sh, r.sites[o.site], o, isNew, d, org);
        }
      case Maintain(domain, now) =>
        if domain in r.sites {
          SurvivorsWereThere(r.vecs, domain, GoneAt(r.sites[domain], now), By(d), k);
        }
      case _ => assert k in Of(r.vecs, By(d));
    }
  }

  lemma {:induction false} FirstLabelDecides(sh: Shape, ops: seq<Op>, org: string -> string)
    requires sh.width > 0 && OneOrgEach(ops, org)
    ensures FirstDecides(Run(sh, ops), org)
  {
    if ops != [] {
      var before, op := ops[..|ops| - 1], ops[|ops| - 1];
      assert op in ops;
      FirstLabelDecides(sh, before, org);
      StepKeepsFirstDecides(sh, Run(sh, before), op, org);
    }
  }

  /** All series of a site that some first label and some path could make. */
  ghost function Possible(site: string, d: Dim, org: string -> string, firsts: set<string>, paths: set<string>):
    set<Series>
  {
    set f, p | f in firsts && p in paths :: Series(site, LabelsFor(org, d, f), p)
  }

  lemma {:induction false} OneRowIsBounded(site: string, labels: seq<string>, paths: set<string>)
    ensures |set p | p in paths :: Series(site, labels, p)| <= |paths|
  {
    var row := set p | p in paths :: Series(site, labels, p);
    if paths == {} {
      assert row == {};
    } else {
      var p :| p in paths;
      var rest := set q | q in paths - {p} :: Series(site, labels, q);
      OneRowIsBounded(site, labels, paths - {p});
      assert row == rest + {Series(site, labels, p)};
    }
  }

  lemma OneRowMore(
    site: string, d: Dim, org: string -> string, firsts: set<string>, paths: set<string>, f: string)
    requires f in firsts
    ensures Possible(site, d, org, firsts, paths)
            == Possible(site, d, org, firsts - {f}, paths) + set p | p in paths :: Series(site, LabelsFor(org, d, f), p)
  {
  }

  lemma OneMoreTimes(all: nat, rest: nat, row: nat, n: nat, m: nat)
    requires all <= rest + row && rest <= n * m && row <= m
    ensures all <= (n + 1) * m
  {
    assert (n + 1) * m == n * m + m;
  }

  lemma {:induction false} PossibleIsBounded(
    site: string, d: Dim, org: string -> string, firsts: set<string>, paths: set<string>)
    ensures |Possible(site, d, org, firsts, paths)| <= |firsts| * |paths|
  {
    if firsts == {} {
      assert Possible(site, d, org, firsts, paths) == {};
    } else {
      var f :| f in firsts;
      var rest := firsts - {f};
      var row := set p | p in paths :: Series(site, LabelsFor(org, d, f), p);
      PossibleIsBounded(site, d, org, rest, paths);
      OneRowIsBounded(site, LabelsFor(org, d, f), paths);
      OneRowMore(site, d, org, firsts, paths, f);
      UnionIsNoLarger(Possible(site, d, org, rest, paths), row);
      OneMoreTimes(
        |Possible(site, d, org, firsts, paths)|, |Possible(site, d, org, rest, paths)|, |row|, |rest|, |paths|);
      assert |firsts| == |rest| + 1;
    }
  }

  lemma SentinelsAdd(admitted: set<string>, cap: nat)
    requires |admitted| <= cap
    ensures |admitted + FOLDED| <= cap + 2
    ensures |admitted + FOLDED + {ALL}| <= cap + 3
  {
    UnionIsNoLarger({OTHER}, {NONE});
    assert FOLDED == {OTHER} + {NONE};
    UnionIsNoLarger(admitted, FOLDED);
    UnionIsNoLarger(admitted + FOLDED, {ALL});
  }

  lemma ProductGrows(a: nat, b: nat, a': nat, b': nat)
    requires a <= a' && b <= b'
    ensures a * b <= a' * b'
  {
    assert a * b <= a' * b;
    assert a' * b <= a' * b';
  }

  /** The series of one site in one family. */
  ghost function SeriesAt(r: Registered, site: string, d: Dim): set<Series> {
    set k | k in Of(r.vecs, By(d)) && k.site == site
  }

  lemma SeriesArePossible(r: Registered, site: string, d: Dim, org: string -> string)
    requires AllTracked(r) && FirstDecides(r, org) && site in r.sites && d in r.sites[site].gates
    ensures var s := r.sites[site];
            SeriesAt(r, site, d)
            <= Possible(site, d, org, s.gates[d].gate.slots.admitted.Keys + FOLDED,
                        s.cross.slots.admitted.Keys + FOLDED + {ALL})
  {
    var s := r.sites[site];
    forall k | k in SeriesAt(r, site, d)
      ensures k in Possible(site, d, org, s.gates[d].gate.slots.admitted.Keys + FOLDED,
                            s.cross.slots.admitted.Keys + FOLDED + {ALL})
    {
      assert Tracked(s, By(d), k);
      assert k == Series(site, LabelsFor(org, d, k.labels[0]), k.path);
    }
  }

  /** The most series a family can hold for a site: the admitted values and two
      sentinels, times the admitted paths and three. */
  function Bound(cap: nat, crossCap: nat): nat {
    (cap + 2) * (crossCap + 3)
  }

  lemma PossibleAreBounded(
    series: set<Series>, site: string, d: Dim, org: string -> string, own: set<string>, cross: set<string>,
    cap: nat, crossCap: nat)
    requires series <= Possible(site, d, org, own + FOLDED, cross + FOLDED + {ALL})
    requires |own| <= cap && |cross| <= crossCap
    ensures |series| <= Bound(cap, crossCap)
  {
    SentinelsAdd(own, cap);
    SentinelsAdd(cross, crossCap);
    SubsetIsNoLarger(series, Possible(site, d, org, own + FOLDED, cross + FOLDED + {ALL}));
    PossibleIsBounded(site, d, org, own + FOLDED, cross + FOLDED + {ALL});
    ProductGrows(|own + FOLDED|, |cross + FOLDED + {ALL}|, cap + 2, crossCap + 3);
  }

  lemma TrackedSeriesAreBounded(s: Site, series: set<Series>, site: string, d: Dim, org: string -> string)
    requires SiteTracked(s) && d in s.gates
    requires series <= Possible(site, d, org, s.gates[d].gate.slots.admitted.Keys + FOLDED,
                                s.cross.slots.admitted.Keys + FOLDED + {ALL})
    ensures |series| <= Bound(s.gates[d].gate.limits.cap, s.cross.limits.cap)
  {
    var own, cross := s.gates[d].gate.slots.admitted, s.cross.slots.admitted;
    assert |own.Keys| == |own| && |cross.Keys| == |cross|;
    PossibleAreBounded(
      series, site, d, org, own.Keys, cross.Keys, s.gates[d].gate.limits.cap, s.cross.limits.cap);
  }

  /** A family never holds more than (cap + 2) * (cross cap + 3) series of a
      site, as long as every network belongs to one organisation. */
  lemma FamiliesAreBounded(sh: Shape, ops: seq<Op>, site: string, d: Dim, org: string -> string)
    requires sh.width > 0 && OneOrgEach(ops, org) && site in Run(sh, ops).sites
    ensures d in Run(sh, ops).sites[site].gates
    ensures var s := Run(sh, ops).sites[site];
            |SeriesAt(Run(sh, ops), site, d)| <= Bound(s.gates[d].gate.limits.cap, s.cross.limits.cap)
  {
    var r := Run(sh, ops);
    assert SiteOk(sh, r.sites[site]);
    SeriesStayAdmitted(sh, ops);
    FirstLabelDecides(sh, ops, org);
    SeriesArePossible(r, site, d, org);
    TrackedSeriesAreBounded(r.sites[site], SeriesAt(r, site, d), site, d, org);
  }

  // ---------------------------------------------------------------------
  // The caps
  // ---------------------------------------------------------------------

  /** The configuration a site was first given. */
  ghost function FirstConfig(ops: seq<Op>, site: string): Option<Config> {
    if ops == [] then None
    else
      var before, op := FirstConfig(ops[..|ops| - 1], site), ops[|ops| - 1];
      if before.Some? then before
      else if op.Configure? && op.c.domain == site then Some(op.c)
      else None
  }

  ghost predicate LimitsFrom(s: Site, c: Config) {
    && s.pure.limits == NewLimits(c.pathCap, c.admitMinCount)
    && s.cross.limits == NewLimits(c.crossPathCap, c.admitMinCount)
    && (forall d :: d in s.gates ==> s.gates[d].gate.limits == NewLimits(CapFor(c, d), MinCountFor(c, d)))
  }

  lemma StepKeepsLimits(sh: Shape, r: Registered, op: Op, site: string, c: Config)
    requires Ok(sh, r) && site in r.sites && LimitsFrom(r.sites[site], c)
    ensures site in Step(sh, r, op).sites && LimitsFrom(Step(sh, r, op).sites[site], c)
  {
    if op.Record? && op.o.site == site {
      RecordedGrows(sh, r.sites[site], op.o);
    }
  }

  lemma FirstStepSetsLimits(sh: Shape, r: Registered, op: Op, site: string)
    requires Ok(sh, r) && site !in r.sites
    ensures site in Step(sh, r, op).sites <==> op.Configure? && op.c.domain == site
    ensures op.Configure? && op.c.domain == site ==> LimitsFrom(Step(sh, r, op).sites[site], op.c)
  {
  }

  /** A site's caps and thresholds are those of its first configuration on every
      run: a later configuration of the same site does not reach its guards. */
  lemma {:induction false} LimitsAreFirstConfigured(sh: Shape, ops: seq<Op>, site: string)
    requires sh.width > 0
    ensures site in Run(sh, ops).sites <==> FirstConfig(ops, site).Some?
    ensures site in Run(sh, ops).sites ==> LimitsFrom(Run(sh, ops).sites[site], FirstConfig(ops, site).value)
  {
    if ops != [] {
      var before, op := ops[..|ops| - 1], ops[|ops| - 1];
      LimitsAreFirstConfigured(sh, before, site);
      if site in Run(sh, before).sites {
        StepKeepsLimits(sh, Run(sh, before), op, site, FirstConfig(before, site).value);
      } else {
        FirstStepSetsLimits(sh, Run(sh, before), op, site);
      }
    }
  }

  /** So the caps a site started with bound its families for good. */
  lemma FamiliesStayWithinFirstCaps(
    sh: Shape, ops: seq<Op>, site: string, d: Dim, org: string -> string, c: Config)
    requires sh.width > 0 && OneOrgEach(ops, org) && FirstConfig(ops, site) == Some(c)
    ensures |SeriesAt(Run(sh, ops), site, d)|
            <= Bound(NewLimits(CapFor(c, d), 1).cap, NewLimits(c.crossPathCap, 1).cap)
  {
    LimitsAreFirstConfigured(sh, ops, site);
    FamiliesAreBounded(sh, ops, site, d, org);
  }
}
