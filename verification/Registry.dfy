/** The metrics registry of internal/aggregate/registry.go: observations become
    label tuples through the guards of their site, and maintenance deletes the
    series of labels the guards let go.

    A counter family is a map from label tuples to counts. The guards and
    sketches of a site are the values that `Guard.Guard` and `Sketch.Counter`
    are proved against. */
module Registry {
  import opened Sketch
  import opened Guard
  import opened Families

  datatype Kind = Pageview | Custom | Engagement

  datatype Dim =
    Country | Asn | Referrer | Source | Medium | Campaign | Browser | Os | Device | Screen | Event

  const DIMS: seq<Dim> :=
    [Country, Asn, Referrer, Source, Medium, Campaign, Browser, Os, Device, Screen, Event]

  datatype Observation = Observation(
    site: string, kind: Kind, name: string, path: string, values: map<Dim, string>, asOrg: string,
    timed: bool, at: int)

  datatype Config = Config(
    domain: string, pathCap: int, crossPathCap: int, admitMinCount: nat, referrerCap: int, asnCap: int,
    campaignCap: int, eventCap: int, decayAfter: int, pathLabels: set<Dim>, uniqueByPath: bool, sessionTtl: int)

  /** A guard without its sketch, and with it. */
  datatype Gate = Gate(limits: Limits, slots: Slots)
  datatype OwnGate = OwnGate(gate: Gate, sketch: State)

  /** Both path guards draw on one sketch; every dimension has its own. */
  datatype Site = Site(
    cfg: Config, pathSketch: State, pure: Gate, cross: Gate, gates: map<Dim, OwnGate>,
    pathUniques: set<string>)

  /** The counter families, in the registry's own grouping. */
  datatype Vecs = Vecs(
    pageviews: Family, entries: Family, exits: Family, timeOnPage: Family, dims: map<Dim, Family>)

  datatype Registered = Registered(
    sites: map<string, Site>, vecs: Vecs, unknown: nat, sessionsTotal: map<string, nat>)

  const NOTHING_REGISTERED :=
    Registered(map[], Vecs(map[], map[], map[], map[], map d: Dim | d in DIMS :: map[]), 0, map[])

  /** The names of the families. */
  datatype Name = Pageviews | Entries | Exits | TimeOnPage | By(dim: Dim)

  function Of(v: Vecs, n: Name): Family {
    match n
    case Pageviews => v.pageviews
    case Entries => v.entries
    case Exits => v.exits
    case TimeOnPage => v.timeOnPage
    case By(d) => if d in v.dims then v.dims[d] else map[]
  }

  // ---------------------------------------------------------------------
  // Configuration
  // ---------------------------------------------------------------------

  /** The dimensions whose values nobody can invent. */
  predicate Closed(d: Dim) {
    d.Browser? || d.Os? || d.Device? || d.Screen? || d.Country?
  }

  /** Closed dimensions are admitted on first sight. */
  function MinCountFor(c: Config, d: Dim): nat {
    if Closed(d) then 1 else c.admitMinCount
  }

  function FixedCap(d: Dim): nat {
    if d.Country? then 300 else 40
  }

  function CapFor(c: Config, d: Dim): int {
    match d
    case Referrer => c.referrerCap
    case Asn => c.asnCap
    case Campaign => c.campaignCap
    case Source => c.campaignCap
    case Medium => c.campaignCap
    case Event => c.eventCap
    case _ => FixedCap(d)
  }

  function NewGate(capacity: int, minCount: nat): Gate {
    Gate(NewLimits(capacity, minCount), NO_SLOTS)
  }

  function NewSite(sh: Shape, c: Config): Site {
    Site(
      c, State(Zeros(sh), 0), NewGate(c.pathCap, c.admitMinCount), NewGate(c.crossPathCap, c.admitMinCount),
      map d: Dim | d in DIMS :: OwnGate(NewGate(CapFor(c, d), MinCountFor(c, d)), State(Zeros(sh), 0)),
      {})
  }

  /** A known site keeps everything but its configuration. */
  function Configured(sh: Shape, sites: map<string, Site>, c: Config): map<string, Site> {
    sites[c.domain := if c.domain in sites then sites[c.domain].(cfg := c) else NewSite(sh, c)]
  }

  function ConfiguredAll(sh: Shape, sites: map<string, Site>, cs: seq<Config>): map<string, Site> {
    if cs == [] then sites else Configured(sh, ConfiguredAll(sh, sites, cs[..|cs| - 1]), cs[|cs| - 1])
  }

  ghost predicate AllDims<T>(m: map<Dim, T>) {
    forall d: Dim :: d in m
  }

  ghost predicate SiteOk(sh: Shape, s: Site) {
    && GridOk(sh, s.pathSketch.grid)
    && AllDims(s.gates)
    && (forall d :: d in s.gates ==> GridOk(sh, s.gates[d].sketch.grid))
  }

  ghost predicate Ok(sh: Shape, r: Registered) {
    && AllDims(r.vecs.dims)
    && (forall s :: s in r.sites ==> SiteOk(sh, r.sites[s]) && r.sites[s].cfg.domain == s)
  }

  // ---------------------------------------------------------------------
  // Recording
  // ---------------------------------------------------------------------

  datatype Offered = Offered(gate: Gate, sketch: State, shown: string)

  /** What offering a value to a guard does to guard and sketch, and the label it gets. */
  function Offer(sh: Shape, g: Gate, s: State, v: string, now: int): (r: Offered)
    requires GridOk(sh, s.grid)
    ensures GridOk(sh, r.sketch.grid)
  {
    if v == "" then Offered(g, s, NONE)
    else
      var est := Estimate(sh, s, v);
      Offered(
        g.(slots := AfterAdmit(g.limits, g.slots, est, v, now)), AfterAdd(sh, s, v),
        LabelFor(g.limits, g.slots, est, v))
  }

  function OfferOwn(sh: Shape, g: OwnGate, v: string, now: int): Offered
    requires GridOk(sh, g.sketch.grid)
  {
    Offer(sh, g.gate, g.sketch, v, now)
  }

  /** Custom events count towards the event family, page views towards the rest. */
  predicate CountsFor(d: Dim, k: Kind) {
    if d.Event? then k.Custom? else k.Pageview?
  }

  function ValueOf(o: Observation, d: Dim): string {
    if d.Event? then o.name else if d in o.values then o.values[d] else ""
  }

  function PurePath(sh: Shape, s: Site, o: Observation): Offered
    requires SiteOk(sh, s)
  {
    Offer(sh, s.pure, s.pathSketch, o.path, o.at)
  }

  /** The second admission of the path, on the sketch the first one has just fed. */
  function CrossPath(sh: Shape, s: Site, o: Observation): Offered
    requires SiteOk(sh, s)
  {
    Offer(sh, s.cross, PurePath(sh, s, o).sketch, o.path, o.at)
  }

  /** Once the network is folded, its organisation folds with it. */
  function OrgLabel(o: Observation, asn: string): string {
    if asn == OTHER || asn == NONE then asn
    else if o.asOrg == "" then NONE
    else o.asOrg
  }

  function OwnLabels(o: Observation, d: Dim, shown: string): seq<string> {
    if d.Asn? then [shown, OrgLabel(o, shown)] else [shown]
  }

  /** The series of one dimension, given the label that the path was admitted under. */
  function CountedBy(sh: Shape, g: OwnGate, o: Observation, d: Dim, path: string): Option<Series>
    requires GridOk(sh, g.sketch.grid)
  {
    if CountsFor(d, o.kind) then Some(Series(o.site, OwnLabels(o, d, OfferOwn(sh, g, ValueOf(o, d), o.at).shown), path))
    else None
  }

  function PathLabel(c: Config, d: Dim, crossPath: string): string {
    if d in c.pathLabels then crossPath else ALL
  }

  function Peeked(g: Gate, v: string): string {
    if v == "" then NONE else if v in g.slots.admitted then v else OTHER
  }

  /** The series an observation counts in one family, if any. `isNew` is the
      session tracker's answer to the page view. */
  function CountedIn(sh: Shape, s: Site, o: Observation, isNew: bool, n: Name): Option<Series>
    requires SiteOk(sh, s)
  {
    match n
    case Pageviews =>
      if o.kind.Pageview? then Some(Series(o.site, [], PurePath(sh, s, o).shown)) else None
    case Entries =>
      if o.kind.Pageview? && isNew then Some(Series(o.site, [], PurePath(sh, s, o).shown)) else None
    case Exits => None
    case TimeOnPage =>
      if o.kind.Engagement? && o.timed then Some(Series(o.site, [], Peeked(s.cross, o.path))) else None
    case By(d) => CountedBy(sh, s.gates[d], o, d, PathLabel(s.cfg, d, CrossPath(sh, s, o).shown))
  }

  function IncIf(f: Family, k: Option<Series>): Family {
    if k.Some? then Inc(f, k.value) else f
  }

  function Counted(sh: Shape, v: Vecs, s: Site, o: Observation, isNew: bool): Vecs
    requires SiteOk(sh, s)
  {
    Vecs(
      IncIf(v.pageviews, CountedIn(sh, s, o, isNew, Pageviews)),
      IncIf(v.entries, CountedIn(sh, s, o, isNew, Entries)),
      v.exits,
      IncIf(v.timeOnPage, CountedIn(sh, s, o, isNew, TimeOnPage)),
      CountedDims(sh, v.dims, s, o, CrossPath(sh, s, o).shown))
  }

  function CountedDims(sh: Shape, dims: map<Dim, Family>, s: Site, o: Observation, crossPath: string):
    (r: map<Dim, Family>)
    requires SiteOk(sh, s)
    ensures r.Keys == dims.Keys
  {
    map d | d in dims :: IncIf(dims[d], CountedBy(sh, s.gates[d], o, d, PathLabel(s.cfg, d, crossPath)))
  }

  function Uniques(s: Site, o: Observation, path: string): set<string> {
    if o.kind.Pageview? && s.cfg.uniqueByPath && path != OTHER && path != NONE then s.pathUniques + {path}
    else s.pathUniques
  }

  function RecordedGate(sh: Shape, g: OwnGate, o: Observation, d: Dim): OwnGate
    requires GridOk(sh, g.sketch.grid)
  {
    if CountsFor(d, o.kind) then
      var r := OfferOwn(sh, g, ValueOf(o, d), o.at);
      OwnGate(r.gate, r.sketch)
    else g
  }

  function RecordedGates(sh: Shape, s: Site, o: Observation): map<Dim, OwnGate>
    requires SiteOk(sh, s)
  {
    map d | d in s.gates :: RecordedGate(sh, s.gates[d], o, d)
  }

  /** The guards of a site after an observation. */
  function Recorded(sh: Shape, s: Site, o: Observation): Site
    requires SiteOk(sh, s)
  {
    if o.kind.Engagement? then s
    else
      var pure, cross := PurePath(sh, s, o), CrossPath(sh, s, o);
      Site(s.cfg, cross.sketch, pure.gate, cross.gate, RecordedGates(sh, s, o), Uniques(s, o, cross.shown))
  }

  function AfterRecord(sh: Shape, r: Registered, o: Observation, isNew: bool): Registered
    requires Ok(sh, r)
  {
    if o.site !in r.sites then r.(unknown := r.unknown + 1)
    else
      var s := r.sites[o.site];
      r.(sites := r.sites[o.site := Recorded(sh, s, o)], vecs := Counted(sh, r.vecs, s, o, isNew))
  }

  // ---------------------------------------------------------------------
  // Maintenance
  // ---------------------------------------------------------------------

  /** What the guards of a site let go at one maintenance. */
  datatype Gone = Gone(pure: set<string>, cross: set<string>, values: map<Dim, set<string>>)

  function GoneAt(s: Site, now: int): Gone {
    Gone(
      Expired(s.pure.slots, now, s.cfg.decayAfter), Expired(s.cross.slots, now, s.cfg.decayAfter),
      map d | d in s.gates :: Expired(s.gates[d].gate.slots, now, s.cfg.decayAfter))
  }

  /** Whether a series of the site goes with them. */
  predicate Dead(g: Gone, n: Name, k: Series) {
    match n
    case Pageviews => k.labels == [] && k.path in g.pure
    case Entries => k.labels == [] && k.path in g.pure
    case Exits => k.labels == [] && k.path in g.pure
    case TimeOnPage => k.path in g.cross
    case By(d) => k.path in g.cross || (d in g.values && k.labels != [] && k.labels[0] in g.values[d])
  }

  function DeadSeries(f: Family, domain: string, g: Gone, n: Name): set<Series> {
    set k | k in f && k.site == domain && Dead(g, n, k)
  }

  /** The parts that the loops of maintenance take away one by one. */
  function OfPaths(f: Family, domain: string, ps: set<string>): set<Series> {
    set k | k in f && k.site == domain && k.labels == [] && k.path in ps
  }

  function OnPaths(f: Family, domain: string, ps: set<string>): set<Series> {
    set k | k in f && k.site == domain && k.path in ps
  }

  function WithValues(f: Family, domain: string, vs: set<string>): set<Series> {
    set k | k in f && k.site == domain && k.labels != [] && k.labels[0] in vs
  }

  function Purged(v: Vecs, domain: string, g: Gone): Vecs {
    Vecs(
      v.pageviews - DeadSeries(v.pageviews, domain, g, Pageviews),
      v.entries - DeadSeries(v.entries, domain, g, Entries),
      v.exits - DeadSeries(v.exits, domain, g, Exits),
      v.timeOnPage - DeadSeries(v.timeOnPage, domain, g, TimeOnPage),
      map d | d in v.dims :: v.dims[d] - DeadSeries(v.dims[d], domain, g, By(d)))
  }

  function DecayGate(g: Gate, now: int, after: int): Gate {
    g.(slots := AfterDecay(g.slots, now, after))
  }

  function ResetIf(sh: Shape, s: State, dropped: set<string>): State {
    if dropped == {} then s else AfterReset(sh, s)
  }

  function Decayed(sh: Shape, s: Site, now: int): Site {
    var g := GoneAt(s, now);
    Site(
      s.cfg, ResetIf(sh, ResetIf(sh, s.pathSketch, g.pure), g.cross),
      DecayGate(s.pure, now, s.cfg.decayAfter), DecayGate(s.cross, now, s.cfg.decayAfter),
      map d | d in s.gates ::
        OwnGate(DecayGate(s.gates[d].gate, now, s.cfg.decayAfter), ResetIf(sh, s.gates[d].sketch, g.values[d])),
      s.pathUniques - g.cross)
  }

  /** Maintaining one site. */
  function Maintained(sh: Shape, r: Registered, domain: string, now: int): Registered
    requires domain in r.sites
  {
    var s := r.sites[domain];
    r.(sites := r.sites[domain := Decayed(sh, s, now)], vecs := Purged(r.vecs, domain, GoneAt(s, now)))
  }

  function MaintainedAll(sh: Shape, r: Registered, order: seq<string>, now: int): Registered {
    if order == [] then r
    else
      var before := MaintainedAll(sh, r, order[..|order| - 1], now);
      var domain := order[|order| - 1];
      if domain in before.sites then Maintained(sh, before, domain, now) else before
  }

  lemma OneMaintainedMore(sh: Shape, r: Registered, order: seq<string>, domain: string, now: int)
    requires domain in MaintainedAll(sh, r, order, now).sites
    ensures MaintainedAll(sh, r, order + [domain], now)
            == Maintained(sh, MaintainedAll(sh, r, order, now), domain, now)
  {
    assert (order + [domain])[..|order|] == order;
  }

  ghost predicate ListsOnce(order: seq<string>, domains: set<string>) {
    && (forall d :: d in order <==> d in domains)
    && (forall i, j :: 0 <= i < j < |order| ==> order[i] != order[j])
  }

  lemma ListsOneMore(order: seq<string>, domains: set<string>, domain: string)
    requires ListsOnce(order, domains) && domain !in domains
    ensures ListsOnce(order + [domain], domains + {domain})
  {
  }

  /** A list of every dimension, each once. */
  ghost predicate ListsDims(ds: seq<Dim>) {
    && (forall d: Dim :: d in ds)
    && (forall i, j :: 0 <= i < j < |ds| ==> ds[i] != ds[j])
  }

  lemma DimsAreListed()
    ensures ListsDims(DIMS)
  {
    forall d: Dim
      ensures d in DIMS
    {
      match d
      case Country => assert DIMS[0] == d;
      case Asn => assert DIMS[1] == d;
      case Referrer => assert DIMS[2] == d;
      case Source => assert DIMS[3] == d;
      case Medium => assert DIMS[4] == d;
      case Campaign => assert DIMS[5] == d;
      case Browser => assert DIMS[6] == d;
      case Os => assert DIMS[7] == d;
      case Device => assert DIMS[8] == d;
      case Screen => assert DIMS[9] == d;
      case Event => assert DIMS[10] == d;
    }
  }

  /** What a loop over the first `k` dimensions has made of `m` on its way to `target`. */
  function Overlay<T>(ds: seq<Dim>, m: map<Dim, T>, target: map<Dim, T>, k: nat): (r: map<Dim, T>)
    requires AllDims(m) && AllDims(target) && k <= |ds|
    ensures AllDims(r)
  {
    if k == 0 then m else Overlay(ds, m, target, k - 1)[ds[k - 1] := target[ds[k - 1]]]
  }

  lemma {:induction false} OverlayAt<T>(ds: seq<Dim>, m: map<Dim, T>, target: map<Dim, T>, k: nat, d: Dim)
    requires AllDims(m) && AllDims(target) && k <= |ds|
    ensures Overlay(ds, m, target, k)[d] == if d in ds[..k] then target[d] else m[d]
  {
    if k > 0 {
      OverlayAt(ds, m, target, k - 1, d);
      assert ds[..k] == ds[..k - 1] + [ds[k - 1]];
    }
  }

  lemma OverlayReachesTarget<T>(ds: seq<Dim>, m: map<Dim, T>, target: map<Dim, T>)
    requires ListsDims(ds) && AllDims(m) && AllDims(target)
    ensures Overlay(ds, m, target, |ds|) == target
  {
    assert ds[..|ds|] == ds;
    forall d: Dim
      ensures Overlay(ds, m, target, |ds|)[d] == target[d]
    {
      OverlayAt(ds, m, target, |ds|, d);
    }
  }

  lemma OverlayNext<T>(ds: seq<Dim>, m: map<Dim, T>, target: map<Dim, T>, k: nat)
    requires ListsDims(ds) && AllDims(m) && AllDims(target) && k < |ds|
    ensures Overlay(ds, m, target, k)[ds[k]] == m[ds[k]]
  {
    OverlayAt(ds, m, target, k, ds[k]);
  }

  /** Half-way through the dimensions: the first `k` guards and families have
      recorded the observation. */
  ghost predicate DimsDone(
    sh: Shape, st: Site, o: Observation, crossPath: string, ds: seq<Dim>, dims0: map<Dim, Family>, k: nat,
    gates: map<Dim, OwnGate>, dims: map<Dim, Family>)
    requires SiteOk(sh, st) && AllDims(dims0) && k <= |ds|
  {
    && gates == Overlay(ds, st.gates, RecordedGates(sh, st, o), k)
    && dims == Overlay(ds, dims0, CountedDims(sh, dims0, st, o, crossPath), k)
  }

  lemma DimIsNext(
    sh: Shape, st: Site, o: Observation, crossPath: string, ds: seq<Dim>, dims0: map<Dim, Family>, k: nat,
    gates: map<Dim, OwnGate>, dims: map<Dim, Family>)
    requires SiteOk(sh, st) && AllDims(dims0) && ListsDims(ds) && k < |ds|
    requires DimsDone(sh, st, o, crossPath, ds, dims0, k, gates, dims)
    ensures AllDims(gates) && AllDims(dims)
    ensures gates[ds[k]] == st.gates[ds[k]] && dims[ds[k]] == dims0[ds[k]]
  {
    OverlayNext(ds, st.gates, RecordedGates(sh, st, o), k);
    OverlayNext(ds, dims0, CountedDims(sh, dims0, st, o, crossPath), k);
  }

  lemma DimsOneMore(
    sh: Shape, st: Site, o: Observation, crossPath: string, ds: seq<Dim>, dims0: map<Dim, Family>, k: nat,
    gates: map<Dim, OwnGate>, dims: map<Dim, Family>, g: OwnGate, f: Family)
    requires SiteOk(sh, st) && AllDims(dims0) && ListsDims(ds) && k < |ds|
    requires DimsDone(sh, st, o, crossPath, ds, dims0, k, gates, dims)
    requires g == RecordedGate(sh, st.gates[ds[k]], o, ds[k])
    requires f == IncIf(dims0[ds[k]], CountedBy(sh, st.gates[ds[k]], o, ds[k], PathLabel(st.cfg, ds[k], crossPath)))
    ensures DimsDone(sh, st, o, crossPath, ds, dims0, k + 1, gates[ds[k] := g], dims[ds[k] := f])
  {
  }

  lemma AllDimsDone(
    sh: Shape, st: Site, o: Observation, crossPath: string, ds: seq<Dim>, dims0: map<Dim, Family>,
    gates: map<Dim, OwnGate>, dims: map<Dim, Family>)
    requires SiteOk(sh, st) && AllDims(dims0) && ListsDims(ds)
    requires DimsDone(sh, st, o, crossPath, ds, dims0, |ds|, gates, dims)
    ensures gates == RecordedGates(sh, st, o)
    ensures dims == CountedDims(sh, dims0, st, o, crossPath)
  {
    OverlayReachesTarget(ds, st.gates, RecordedGates(sh, st, o));
    OverlayReachesTarget(ds, dims0, CountedDims(sh, dims0, st, o, crossPath));
  }

  // ---------------------------------------------------------------------
  // The registry
  // ---------------------------------------------------------------------

  class Registry {
    const sh: Shape
    var sites: map<string, Site>
    var pageviews: Family
    var entries: Family
    var exits: Family
    var timeOnPage: Family
    var dims: map<Dim, Family>
    var unknown: nat
    var sessionsTotal: map<string, nat>

    ghost function Now(): Registered
      reads this
    {
      Registered(sites, Vecs(pageviews, entries, exits, timeOnPage, dims), unknown, sessionsTotal)
    }

    ghost predicate Valid()
      reads `sites, `dims
    {
      && sh.width > 0
      && AllDims(dims)
      && (forall s :: s in sites ==> SiteOk(sh, sites[s]) && sites[s].cfg.domain == s)
    }

    constructor (hash: string -> Hash, cs: seq<Config>)
      ensures Valid() && sh == Shape(4, 4096, hash)
      ensures Now().sites == ConfiguredAll(sh, map[], cs)
      ensures Now().vecs == Vecs(map[], map[], map[], map[], map d: Dim | d in DIMS :: map[])
      ensures Now().unknown == 0 && Now().sessionsTotal == map[]
    {
      sh := Shape(4, 4096, hash);
      sites := map[];
      pageviews, entries, exits, timeOnPage := map[], map[], map[], map[];
      dims := map d: Dim | d in DIMS :: map[];
      unknown, sessionsTotal := 0, map[];
      new;
      NothingIsOk(sh);
      Configure(cs);
    }

    method Configure(cs: seq<Config>)
      requires Valid()
      modifies `sites
      ensures Valid()
      ensures sites == ConfiguredAll(sh, old(sites), cs)
    {
      ConfiguredAllIsOk(sh, Now(), cs);
      for i := 0 to |cs|
        invariant sites == ConfiguredAll(sh, old(sites), cs[..i])
      {
        assert cs[..i + 1][..i] == cs[..i];
        if cs[i].domain in sites {
          var st := sites[cs[i].domain];
          sites := sites[cs[i].domain := st.(cfg := cs[i])];
        } else {
          sites := sites[cs[i].domain := NewSite(sh, cs[i])];
        }
      }
      assert cs[..|cs|] == cs;
    }

    /** `isNew` is what the session tracker answers to the page view. */
    method Record(o: Observation, isNew: bool)
      requires Valid()
      modifies this
      ensures Valid()
      ensures Now() == AfterRecord(sh, old(Now()), o, isNew)
    {
      AfterRecordIsOk(sh, Now(), o, isNew);
      if o.site !in sites {
        unknown := unknown + 1;
        return;
      }
      RecordKnown(sites[o.site], o, isNew);
    }

    /** An observation of a known site. */
    method RecordKnown(st: Site, o: Observation, isNew: bool)
      requires SiteOk(sh, st) && AllDims(dims) && o.site in sites && sites[o.site] == st
      modifies `sites, `pageviews, `entries, `timeOnPage, `dims
      ensures sites == old(sites)[o.site := Recorded(sh, st, o)]
      ensures Now().vecs == Counted(sh, old(Now()).vecs, st, o, isNew)
    {
      if o.kind.Engagement? {
        RecordEngagement(st, o);
        EngagementCountsNoDims(sh, dims, st, o);
        assert sites[o.site := st] == sites;
      } else {
        RecordEvent(st, o, isNew);
      }
    }

    /** A page view or a custom event. */
    method RecordEvent(st: Site, o: Observation, isNew: bool)
      requires SiteOk(sh, st) && AllDims(dims) && !o.kind.Engagement?
      modifies `sites, `pageviews, `entries, `dims
      ensures sites == old(sites)[o.site := Recorded(sh, st, o)]
      ensures Now().vecs == Counted(sh, old(Now()).vecs, st, o, isNew)
    {
      var pure := PurePath(sh, st, o);
      var cross := CrossPath(sh, st, o);
      if o.kind.Pageview? {
        RecordPageview(o.site, pure.shown, isNew);
      }
      DimsAreListed();
      var gates := RecordDims(st, o, cross.shown, DIMS);
      sites := sites[o.site :=
        Site(st.cfg, cross.sketch, pure.gate, cross.gate, gates, Uniques(st, o, cross.shown))];
    }

    method RecordPageview(domain: string, path: string, isNew: bool)
      modifies `pageviews, `entries
      ensures pageviews == Inc(old(pageviews), Series(domain, [], path))
      ensures entries == if isNew then Inc(old(entries), Series(domain, [], path)) else old(entries)
    {
      pageviews := Inc(pageviews, Series(domain, [], path));
      if isNew {
        entries := Inc(entries, Series(domain, [], path));
      }
    }

    /** The loop over the dimensions. */
    method RecordDims(st: Site, o: Observation, crossPath: string, ds: seq<Dim>)
      returns (gates: map<Dim, OwnGate>)
      requires SiteOk(sh, st) && AllDims(dims) && ListsDims(ds)
      modifies `dims
      ensures gates == RecordedGates(sh, st, o)
      ensures dims == CountedDims(sh, old(dims), st, o, crossPath)
    {
      gates := st.gates;
      ghost var dims0 := dims;
      for i := 0 to |ds|
        invariant DimsDone(sh, st, o, crossPath, ds, dims0, i, gates, dims)
      {
        var d := ds[i];
        DimIsNext(sh, st, o, crossPath, ds, dims0, i, gates, dims);
        var g, f := RecordDim(gates[d], dims[d], o, d, PathLabel(st.cfg, d, crossPath));
        DimsOneMore(sh, st, o, crossPath, ds, dims0, i, gates, dims, g, f);
        gates := gates[d := g];
        dims := dims[d := f];
      }
      AllDimsDone(sh, st, o, crossPath, ds, dims0, gates, dims);
    }

    /** One dimension's part of the loop: its guard and its family. */
    method RecordDim(g: OwnGate, f: Family, o: Observation, d: Dim, path: string)
      returns (g': OwnGate, f': Family)
      requires GridOk(sh, g.sketch.grid)
      ensures g' == RecordedGate(sh, g, o, d)
      ensures f' == IncIf(f, CountedBy(sh, g, o, d, path))
    {
      if !CountsFor(d, o.kind) {
        return g, f;
      }
      var r := OfferOwn(sh, g, ValueOf(o, d), o.at);
      return OwnGate(r.gate, r.sketch), Inc(f, Series(o.site, OwnLabels(o, d, r.shown), path));
    }

    method RecordEngagement(st: Site, o: Observation)
      modifies `timeOnPage
      ensures timeOnPage
              == if o.timed then Inc(old(timeOnPage), Series(o.site, [], Peeked(st.cross, o.path)))
                 else old(timeOnPage)
    {
      if !o.timed {
        return;
      }
      timeOnPage := Inc(timeOnPage, Series(o.site, [], Peeked(st.cross, o.path)));
    }

    method SessionStarted(domain: string)
      modifies `sessionsTotal
      ensures sessionsTotal
              == old(sessionsTotal)[domain := (if domain in old(sessionsTotal) then old(sessionsTotal)[domain] else 0) + 1]
    {
      sessionsTotal := sessionsTotal[domain := (if domain in sessionsTotal then sessionsTotal[domain] else 0) + 1];
    }

    method SessionEnded(domain: string, exitPath: string)
      modifies `exits
      ensures exits == Inc(old(exits), Series(domain, [], exitPath))
    {
      exits := Inc(exits, Series(domain, [], exitPath));
    }

    /** Maintains every site, in some order. */
    method Maintain(now: int) returns (ghost order: seq<string>)
      requires Valid()
      modifies this
      ensures Valid()
      ensures ListsOnce(order, old(sites).Keys)
      ensures Now() == MaintainedAll(sh, old(Now()), order, now)
    {
      order := [];
      ghost var was := Now();
      var pending := sites.Keys;
      while pending != {}
        invariant pending <= was.sites.Keys
        invariant ListsOnce(order, was.sites.Keys - pending)
        invariant Now() == MaintainedAll(sh, was, order, now)
        decreases pending
      {
        var d :| d in pending;
        MaintainNext(d, now, was, order);
        ListsOneMore(order, was.sites.Keys - pending, d);
        assert was.sites.Keys - (pending - {d}) == was.sites.Keys - pending + {d};
        pending := pending - {d};
        order := order + [d];
      }
      MaintainedAllIsOk(sh, was, order, now);
    }

    /** Maintains the site that comes after those in `order`. */
    method MaintainNext(domain: string, now: int, ghost was: Registered, ghost order: seq<string>)
      requires sh.width > 0 && Ok(sh, was) && domain in was.sites && Now() == MaintainedAll(sh, was, order, now)
      modifies this
      ensures Now() == MaintainedAll(sh, was, order + [domain], now)
    {
      MaintainedAllIsOk(sh, was, order, now);
      OneMaintainedMore(sh, was, order, domain, now);
      MaintainSite(domain, now);
    }

    method MaintainSite(domain: string, now: int)
      requires Ok(sh, Now()) && domain in sites
      modifies this
      ensures Now() == Maintained(sh, old(Now()), domain, now)
    {
      var st := sites[domain];
      var gone := GoneAt(st, now);
      DropPurePaths(domain, gone.pure);
      DimsAreListed();
      DropCrossPaths(domain, gone.cross, DIMS);
      DropValues(domain, gone.values, DIMS);
      sites := sites[domain := Decayed(sh, st, now)];
      PurgedInParts(old(Now().vecs), domain, gone);
    }

    method DropPurePaths(domain: string, ps: set<string>)
      modifies `pageviews, `entries, `exits
      ensures pageviews == old(pageviews) - OfPaths(old(pageviews), domain, ps)
      ensures entries == old(entries) - OfPaths(old(entries), domain, ps)
      ensures exits == old(exits) - OfPaths(old(exits), domain, ps)
    {
      var pending := ps;
      while pending != {}
        invariant pending <= ps
        invariant pageviews == old(pageviews) - OfPaths(old(pageviews), domain, ps - pending)
        invariant entries == old(entries) - OfPaths(old(entries), domain, ps - pending)
        invariant exits == old(exits) - OfPaths(old(exits), domain, ps - pending)
        decreases pending
      {
        var p :| p in pending;
        OfOnePathMore(old(pageviews), domain, ps - pending, p);
        OfOnePathMore(old(entries), domain, ps - pending, p);
        OfOnePathMore(old(exits), domain, ps - pending, p);
        assert ps - (pending - {p}) == ps - pending + {p};
        pageviews := pageviews - {Series(domain, [], p)};
        entries := entries - {Series(domain, [], p)};
        exits := exits - {Series(domain, [], p)};
        pending := pending - {p};
      }
      assert ps - pending == ps;
    }

    method DropCrossPaths(domain: string, ps: set<string>, ds: seq<Dim>)
      requires AllDims(dims) && ListsDims(ds)
      modifies `dims, `timeOnPage
      ensures dims == DimsOffPaths(old(dims), domain, ps)
      ensures timeOnPage == old(timeOnPage) - OnPaths(old(timeOnPage), domain, ps)
    {
      var pending := ps;
      NoPathsTaken(dims, timeOnPage, domain);
      assert ps - pending == {};
      while pending != {}
        invariant pending <= ps
        invariant dims == DimsOffPaths(old(dims), domain, ps - pending)
        invariant timeOnPage == old(timeOnPage) - OnPaths(old(timeOnPage), domain, ps - pending)
        decreases pending
      {
        var p :| p in pending;
        var q := Query(domain, None, Some(p));
        OnOnePathMore(old(timeOnPage), domain, ps - pending, p);
        DimsOffOnePathMore(old(dims), domain, ps - pending, p);
        assert ps - (pending - {p}) == ps - pending + {p};
        DropEverywhere(q, ds);
        timeOnPage := Without(timeOnPage, q);
        pending := pending - {p};
      }
      assert ps - pending == ps;
    }

    /** Deletes a partial match from every dimension's family. */
    method DropEverywhere(q: Query, ds: seq<Dim>)
      requires AllDims(dims) && ListsDims(ds)
      modifies `dims
      ensures dims == DimsWithout(old(dims), q)
    {
      ghost var target := DimsWithout(dims, q);
      for i := 0 to |ds|
        invariant dims == Overlay(ds, old(dims), target, i)
      {
        OverlayNext(ds, old(dims), target, i);
        dims := dims[ds[i] := Without(dims[ds[i]], q)];
      }
      OverlayReachesTarget(ds, old(dims), target);
    }

    method DropValues(domain: string, values: map<Dim, set<string>>, ds: seq<Dim>)
      requires AllDims(dims) && AllDims(values) && ListsDims(ds)
      modifies `dims
      ensures dims == DimsOffValues(old(dims), domain, values)
    {
      ghost var target := DimsOffValues(dims, domain, values);
      for i := 0 to |ds|
        invariant dims == Overlay(ds, old(dims), target, i)
      {
        OverlayNext(ds, old(dims), target, i);
        var f := DropValuesOf(dims[ds[i]], domain, values[ds[i]]);
        dims := dims[ds[i] := f];
      }
      OverlayReachesTarget(ds, old(dims), target);
    }

    method DropValuesOf(f: Family, domain: string, vs: set<string>) returns (f': Family)
      ensures f' == f - WithValues(f, domain, vs)
    {
      f' := f;
      var pending := vs;
      while pending != {}
        invariant pending <= vs
        invariant f' == f - WithValues(f, domain, vs - pending)
        decreases pending
      {
        var v :| v in pending;
        WithOneValueMore(f, domain, vs - pending, v);
        assert vs - (pending - {v}) == vs - pending + {v};
        f' := Without(f', Query(domain, Some(v), None));
        pending := pending - {v};
      }
      assert vs - pending == vs;
    }
  }

  function DimsOffPaths(dims: map<Dim, Family>, domain: string, ps: set<string>): (r: map<Dim, Family>)
    ensures r.Keys == dims.Keys
  {
    map d | d in dims :: dims[d] - OnPaths(dims[d], domain, ps)
  }

  function DimsOffValues(dims: map<Dim, Family>, domain: string, values: map<Dim, set<string>>):
    (r: map<Dim, Family>)
    requires AllDims(values)
    ensures r.Keys == dims.Keys
  {
    map d | d in dims :: dims[d] - WithValues(dims[d], domain, values[d])
  }

  function DimsWithout(dims: map<Dim, Family>, q: Query): (r: map<Dim, Family>)
    ensures r.Keys == dims.Keys
  {
    map d | d in dims :: Without(dims[d], q)
  }

  lemma OfOnePathMore(f: Family, domain: string, ps: set<string>, p: string)
    ensures f - OfPaths(f, domain, ps) - {Series(domain, [], p)} == f - OfPaths(f, domain, ps + {p})
  {
  }

  lemma OnOnePathMore(f: Family, domain: string, ps: set<string>, p: string)
    ensures Without(f - OnPaths(f, domain, ps), Query(domain, None, Some(p))) == f - OnPaths(f, domain, ps + {p})
  {
  }

  lemma WithOneValueMore(f: Family, domain: string, vs: set<string>, v: string)
    ensures Without(f - WithValues(f, domain, vs), Query(domain, Some(v), None))
            == f - WithValues(f, domain, vs + {v})
  {
  }

  lemma DimsOffOnePathMore(dims: map<Dim, Family>, domain: string, ps: set<string>, p: string)
    ensures DimsWithout(DimsOffPaths(dims, domain, ps), Query(domain, None, Some(p)))
            == DimsOffPaths(dims, domain, ps + {p})
  {
    forall d | d in dims
      ensures Without(DimsOffPaths(dims, domain, ps)[d], Query(domain, None, Some(p)))
              == DimsOffPaths(dims, domain, ps + {p})[d]
    {
      OnOnePathMore(dims[d], domain, ps, p);
    }
  }

  lemma NoPathsTaken(dims: map<Dim, Family>, f: Family, domain: string)
    ensures DimsOffPaths(dims, domain, {}) == dims
    ensures f - OnPaths(f, domain, {}) == f
  {
    forall d | d in dims
      ensures dims[d] - OnPaths(dims[d], domain, {}) == dims[d]
    {
      assert OnPaths(dims[d], domain, {}) == {};
    }
    assert OnPaths(f, domain, {}) == {};
  }

  lemma DeadInParts(f: Family, domain: string, g: Gone, d: Dim)
    requires d in g.values
    ensures var rest := f - OnPaths(f, domain, g.cross);
            rest - WithValues(rest, domain, g.values[d]) == f - DeadSeries(f, domain, g, By(d))
  {
  }

  lemma DimsPurgedInParts(v: Vecs, domain: string, g: Gone)
    requires AllDims(g.values)
    ensures Purged(v, domain, g).dims == DimsOffValues(DimsOffPaths(v.dims, domain, g.cross), domain, g.values)
  {
    forall d | d in v.dims
      ensures DimsOffValues(DimsOffPaths(v.dims, domain, g.cross), domain, g.values)[d]
              == v.dims[d] - DeadSeries(v.dims[d], domain, g, By(d))
    {
      DeadInParts(v.dims[d], domain, g, d);
    }
  }

  /** Deleting loop by loop deletes what `Dead` says. */
  lemma PurgedInParts(v: Vecs, domain: string, g: Gone)
    requires AllDims(g.values)
    ensures Purged(v, domain, g)
            == Vecs(
                 v.pageviews - OfPaths(v.pageviews, domain, g.pure),
                 v.entries - OfPaths(v.entries, domain, g.pure),
                 v.exits - OfPaths(v.exits, domain, g.pure),
                 v.timeOnPage - OnPaths(v.timeOnPage, domain, g.cross),
                 DimsOffValues(DimsOffPaths(v.dims, domain, g.cross), domain, g.values))
  {
    assert OfPaths(v.pageviews, domain, g.pure) == DeadSeries(v.pageviews, domain, g, Pageviews);
    assert OfPaths(v.entries, domain, g.pure) == DeadSeries(v.entries, domain, g, Entries);
    assert OfPaths(v.exits, domain, g.pure) == DeadSeries(v.exits, domain, g, Exits);
    assert OnPaths(v.timeOnPage, domain, g.cross) == DeadSeries(v.timeOnPage, domain, g, TimeOnPage);
    DimsPurgedInParts(v, domain, g);
  }

  lemma ResetIsOk(sh: Shape, s: State, dropped: set<string>)
    requires GridOk(sh, s.grid)
    ensures GridOk(sh, ResetIf(sh, s, dropped).grid)
  {
  }

  lemma DecayedIsOk(sh: Shape, s: Site, now: int)
    requires SiteOk(sh, s)
    ensures SiteOk(sh, Decayed(sh, s, now))
  {
    var g := GoneAt(s, now);
    ResetIsOk(sh, s.pathSketch, g.pure);
    ResetIsOk(sh, ResetIf(sh, s.pathSketch, g.pure), g.cross);
    forall d | d in s.gates
      ensures GridOk(sh, ResetIf(sh, s.gates[d].sketch, g.values[d]).grid)
    {
      ResetIsOk(sh, s.gates[d].sketch, g.values[d]);
    }
  }

  lemma MaintainedIsOk(sh: Shape, r: Registered, domain: string, now: int)
    requires Ok(sh, r) && domain in r.sites
    ensures Ok(sh, Maintained(sh, r, domain, now))
    ensures Maintained(sh, r, domain, now).sites.Keys == r.sites.Keys
  {
    DecayedIsOk(sh, r.sites[domain], now);
  }

  lemma {:induction false} MaintainedAllIsOk(sh: Shape, r: Registered, order: seq<string>, now: int)
    requires Ok(sh, r)
    ensures Ok(sh, MaintainedAll(sh, r, order, now))
    ensures MaintainedAll(sh, r, order, now).sites.Keys == r.sites.Keys
  {
    if order != [] {
      var before := MaintainedAll(sh, r, order[..|order| - 1], now);
      MaintainedAllIsOk(sh, r, order[..|order| - 1], now);
      if order[|order| - 1] in before.sites {
        MaintainedIsOk(sh, before, order[|order| - 1], now);
      }
    }
  }

  lemma NothingIsOk(sh: Shape)
    ensures Ok(sh, NOTHING_REGISTERED)
  {
    DimsAreListed();
  }

  lemma RecordedIsOk(sh: Shape, s: Site, o: Observation)
    requires SiteOk(sh, s)
    ensures SiteOk(sh, Recorded(sh, s, o))
  {
  }

  lemma NewSiteIsOk(sh: Shape, c: Config)
    requires sh.width > 0
    ensures SiteOk(sh, NewSite(sh, c))
  {
    DimsAreListed();
  }

  lemma AfterRecordIsOk(sh: Shape, r: Registered, o: Observation, isNew: bool)
    requires Ok(sh, r)
    ensures Ok(sh, AfterRecord(sh, r, o, isNew))
  {
    if o.site in r.sites {
      RecordedIsOk(sh, r.sites[o.site], o);
    }
  }

  lemma {:induction false} ConfiguredAllIsOk(sh: Shape, r: Registered, cs: seq<Config>)
    requires sh.width > 0 && Ok(sh, r)
    ensures Ok(sh, r.(sites := ConfiguredAll(sh, r.sites, cs)))
  {
    if cs != [] {
      ConfiguredAllIsOk(sh, r, cs[..|cs| - 1]);
      NewSiteIsOk(sh, cs[|cs| - 1]);
    }
  }

  lemma EngagementCountsNoDims(sh: Shape, dims: map<Dim, Family>, st: Site, o: Observation)
    requires SiteOk(sh, st) && AllDims(dims) && o.kind.Engagement?
    ensures CountedDims(sh, dims, st, o, CrossPath(sh, st, o).shown) == dims
  {
  }
}
