/** What one call of the registry does, said of the counters and guards alone:
    which series an observation counts and under which labels, and which series a
    maintenance deletes. */
module RegistryCalls {
  import opened Sketch
  import opened Guard
  import opened Families
  import opened Registry
  import R = RegistryRuns

  // ---------------------------------------------------------------------
  // Observations
  // ---------------------------------------------------------------------

  function CountAt(f: Family, k: Series): nat {
    if k in f then f[k] else 0
  }

  /** The label of a value for a guard with these admitted values. */
  function LabelAmong(admitted: map<string, int>, v: string): string {
    if v == "" then "__none__" else if v in admitted then v else "__other__"
  }

  /** The organisation goes with its network, and folds with it. */
  function OrgAmong(network: string, org: string): string {
    if network == "__other__" || network == "__none__" then network
    else if org == "" then "__none__"
    else org
  }

  /** An observation's value of a dimension is `v`. */
  ghost predicate Has(o: Observation, d: Dim, v: string) {
    if d.Event? then v == o.name
    else if d in o.values then v == o.values[d]
    else v == ""
  }

  /** A dimension's family counts custom events by name, or page views. */
  ghost predicate CountsKind(d: Dim, k: Kind) {
    (d.Event? && k.Custom?) || (!d.Event? && k.Pageview?)
  }

  /** The label of an observation's path in a dimension's family. */
  function PathAmong(s: Site, s': Site, o: Observation, d: Dim): string {
    if d in s.cfg.pathLabels then LabelAmong(s'.cross.slots.admitted, o.path) else "__all__"
  }

  /** The series that an observation counts in the family of a dimension, given
      the guards as they are after the call. */
  ghost predicate HitsDim(s: Site, s': Site, o: Observation, d: Dim, k: Series)
    requires AllDims(s'.gates)
  {
    && CountsKind(d, o.kind)
    && k.site == o.site
    && k.labels != []
    && (exists v :: Has(o, d, v) && k.labels[0] == LabelAmong(s'.gates[d].gate.slots.admitted, v))
    && (if d.Asn? then k.labels[1..] == [OrgAmong(k.labels[0], o.asOrg)] else |k.labels| == 1)
    && k.path == PathAmong(s, s', o, d)
  }

  /** The series that an observation counts: page views and entries under the pure
      guard's label, time on page under the cross guard's, the dimensions under
      their own guard's and the cross guard's. */
  ghost predicate Hits(s: Site, s': Site, o: Observation, isNew: bool, n: Name, k: Series)
    requires AllDims(s'.gates)
  {
    match n
    case Pageviews =>
      o.kind.Pageview? && k == Series(o.site, [], LabelAmong(s'.pure.slots.admitted, o.path))
    case Entries =>
      o.kind.Pageview? && isNew && k == Series(o.site, [], LabelAmong(s'.pure.slots.admitted, o.path))
    case Exits => false
    case TimeOnPage =>
      && o.kind.Engagement? && o.timed
      && k == Series(o.site, [], LabelAmong(s.cross.slots.admitted, o.path))
    case By(d) => HitsDim(s, s', o, d, k)
  }

  lemma OfferShows(sh: Shape, g: Gate, s: State, v: string, now: int)
    requires GridOk(sh, s.grid)
    ensures Offer(sh, g, s, v, now).shown == LabelAmong(Offer(sh, g, s, v, now).gate.slots.admitted, v)
  {
  }

  lemma IncCounts(f: Family, c: Option<Series>, k: Series)
    ensures CountAt(IncIf(f, c), k) == CountAt(f, k) + if c == Some(k) then 1 else 0
  {
  }

  lemma PathsShow(sh: Shape, s: Site, o: Observation)
    requires SiteOk(sh, s) && !o.kind.Engagement?
    ensures PurePath(sh, s, o).shown == LabelAmong(Recorded(sh, s, o).pure.slots.admitted, o.path)
    ensures CrossPath(sh, s, o).shown == LabelAmong(Recorded(sh, s, o).cross.slots.admitted, o.path)
  {
    OfferShows(sh, s.pure, s.pathSketch, o.path, o.at);
    OfferShows(sh, s.cross, PurePath(sh, s, o).sketch, o.path, o.at);
  }

  lemma PathFamiliesHit(sh: Shape, s: Site, o: Observation, isNew: bool, n: Name, k: Series)
    requires SiteOk(sh, s) && !n.By?
    ensures SiteOk(sh, Recorded(sh, s, o))
    ensures CountedIn(sh, s, o, isNew, n) == Some(k) <==> Hits(s, Recorded(sh, s, o), o, isNew, n, k)
  {
    RecordedIsOk(sh, s, o);
    if !o.kind.Engagement? {
      PathsShow(sh, s, o);
    }
  }

  lemma SomeValue(o: Observation, d: Dim) returns (v: string)
    ensures Has(o, d, v)
    ensures forall u :: Has(o, d, u) <==> u == v
  {
    v := if d.Event? then o.name else if d in o.values then o.values[d] else "";
  }

  lemma ValueShows(sh: Shape, g: OwnGate, o: Observation, d: Dim, v: string, path: string)
    requires GridOk(sh, g.sketch.grid) && Has(o, d, v)
    ensures CountedBy(sh, g, o, d, path)
            == if CountsKind(d, o.kind) then
                 Some(Series(o.site, OwnLabels(o, d, LabelAmong(RecordedGate(sh, g, o, d).gate.slots.admitted, v)), path))
               else None
  {
    assert ValueOf(o, d) == v;
    OfferShows(sh, g.gate, g.sketch, v, o.at);
  }

  lemma RecordedDim(sh: Shape, s: Site, o: Observation, d: Dim)
    requires SiteOk(sh, s)
    ensures SiteOk(sh, Recorded(sh, s, o))
    ensures CountsKind(d, o.kind) ==>
              && Recorded(sh, s, o).gates[d] == RecordedGate(sh, s.gates[d], o, d)
              && PathLabel(s.cfg, d, CrossPath(sh, s, o).shown) == PathAmong(s, Recorded(sh, s, o), o, d)
  {
    RecordedIsOk(sh, s, o);
    if CountsKind(d, o.kind) {
      PathsShow(sh, s, o);
    }
  }

  lemma CountedInDim(sh: Shape, s: Site, o: Observation, isNew: bool, d: Dim, path: string)
    requires SiteOk(sh, s) && path == PathLabel(s.cfg, d, CrossPath(sh, s, o).shown)
    ensures CountedIn(sh, s, o, isNew, By(d)) == CountedBy(sh, s.gates[d], o, d, path)
  {
  }

  lemma HitsPlainly(s: Site, s': Site, o: Observation, d: Dim, v: string, k: Series)
    requires AllDims(s'.gates) && Has(o, d, v)
    ensures HitsDim(s, s', o, d, k)
            <==> && CountsKind(d, o.kind)
                 && k == Series(
                      o.site, OwnLabels(o, d, LabelAmong(s'.gates[d].gate.slots.admitted, v)), PathAmong(s, s', o, d))
  {
    LabelsInParts(d, LabelAmong(s'.gates[d].gate.slots.admitted, v), o, k.labels);
    assert forall u :: Has(o, d, u) ==> u == v;
  }

  lemma DimFamiliesHit(sh: Shape, s: Site, o: Observation, isNew: bool, d: Dim, k: Series)
    requires SiteOk(sh, s)
    ensures SiteOk(sh, Recorded(sh, s, o))
    ensures CountedIn(sh, s, o, isNew, By(d)) == Some(k) <==> HitsDim(s, Recorded(sh, s, o), o, d, k)
  {
    var v := SomeValue(o, d);
    var path := PathLabel(s.cfg, d, CrossPath(sh, s, o).shown);
    CountedInDim(sh, s, o, isNew, d, path);
    RecordedDim(sh, s, o, d);
    DimHits(sh, s, Recorded(sh, s, o), o, d, v, path, k);
  }

  lemma DimHits(sh: Shape, s: Site, s': Site, o: Observation, d: Dim, v: string, path: string, k: Series)
    requires SiteOk(sh, s) && AllDims(s'.gates) && Has(o, d, v)
    requires CountsKind(d, o.kind) ==>
               s'.gates[d] == RecordedGate(sh, s.gates[d], o, d) && path == PathAmong(s, s', o, d)
    ensures CountedBy(sh, s.gates[d], o, d, path) == Some(k) <==> HitsDim(s, s', o, d, k)
  {
    ValueShows(sh, s.gates[d], o, d, v, path);
    HitsPlainly(s, s', o, d, v, k);
  }

  lemma LabelsInParts(d: Dim, first: string, o: Observation, labels: seq<string>)
    ensures labels == OwnLabels(o, d, first)
            <==> && labels != [] && labels[0] == first
                 && if d.Asn? then labels[1..] == [OrgAmong(first, o.asOrg)] else |labels| == 1
  {
    if labels != [] {
      assert labels == [labels[0]] + labels[1..];
    }
  }

  /** An observation of a known site counts exactly the series that `Hits` names,
      once, and leaves every other count of every family alone. */
  lemma RecordCounts(sh: Shape, r: Registered, o: Observation, isNew: bool, n: Name, k: Series)
    requires Ok(sh, r) && o.site in r.sites
    ensures var s, r' := r.sites[o.site], AfterRecord(sh, r, o, isNew);
            && o.site in r'.sites && SiteOk(sh, r'.sites[o.site])
            && CountAt(Of(r'.vecs, n), k)
               == CountAt(Of(r.vecs, n), k) + if Hits(s, r'.sites[o.site], o, isNew, n, k) then 1 else 0
  {
    var s := r.sites[o.site];
    R.RecordChangesFamily(sh, r, o, isNew, n);
    IncCounts(Of(r.vecs, n), CountedIn(sh, s, o, isNew, n), k);
    if n.By? {
      DimFamiliesHit(sh, s, o, isNew, n.dim, k);
    } else {
      PathFamiliesHit(sh, s, o, isNew, n, k);
    }
  }

  /** So in a dimension's family the first label is the observation's own value of
      that dimension, or stands for its being folded, or for its being empty. */
  lemma FirstLabelIsTheValue(s: Site, s': Site, o: Observation, d: Dim, k: Series)
    requires AllDims(s'.gates) && HitsDim(s, s', o, d, k)
    ensures !d.Event? && d in o.values && o.values[d] != "" ==> k.labels[0] == o.values[d] || k.labels[0] == "__other__"
    ensures !d.Event? && (d !in o.values || o.values[d] == "") ==> k.labels[0] == "__none__"
    ensures d.Event? && o.name != "" ==> k.labels[0] == o.name || k.labels[0] == "__other__"
    ensures d.Event? && o.name == "" ==> k.labels[0] == "__none__"
  {
  }

  // ---------------------------------------------------------------------
  // What an observation admits
  // ---------------------------------------------------------------------

  /** `g'` is `g` after at most one value, `v`, was offered at time `now`: only that
      value can be admitted or renewed, nothing is let go, and the offer is
      counted as folded unless the value is now admitted. */
  ghost predicate OneOffer(g: Gate, g': Gate, v: string, now: int) {
    && g'.limits == g.limits
    && (forall u :: u in g.slots.admitted ==> u in g'.slots.admitted)
    && (forall u :: u in g'.slots.admitted ==>
          if u == v && v != "" then g'.slots.admitted[u] == now
          else u in g.slots.admitted && g'.slots.admitted[u] == g.slots.admitted[u])
    && g'.slots.capped == g.slots.capped + if v != "" && v !in g'.slots.admitted then 1 else 0
  }

  lemma OfferOffers(sh: Shape, g: Gate, s: State, v: string, now: int)
    requires GridOk(sh, s.grid)
    ensures OneOffer(g, Offer(sh, g, s, v, now).gate, v, now)
  {
  }

  /** An observation that is no engagement offers its path to both path guards, and
      to a dimension's guard the value of that dimension if it counts there; an
      engagement offers nothing to anybody. */
  lemma RecordOffers(sh: Shape, s: Site, o: Observation, d: Dim, v: string)
    requires SiteOk(sh, s) && Has(o, d, v)
    ensures SiteOk(sh, Recorded(sh, s, o))
    ensures var s' := Recorded(sh, s, o);
            if o.kind.Engagement? then s' == s
            else
              && OneOffer(s.pure, s'.pure, o.path, o.at) && OneOffer(s.cross, s'.cross, o.path, o.at)
              && (if CountsKind(d, o.kind) then OneOffer(s.gates[d].gate, s'.gates[d].gate, v, o.at)
                  else s'.gates[d] == s.gates[d])
  {
    RecordedIsOk(sh, s, o);
    OfferOffers(sh, s.pure, s.pathSketch, o.path, o.at);
    OfferOffers(sh, s.cross, PurePath(sh, s, o).sketch, o.path, o.at);
    OfferOffers(sh, s.gates[d].gate, s.gates[d].sketch, v, o.at);
  }

  /** The per-path sketches grow by the path of a page view exactly if they are
      switched on and the cross guard shows the path as itself. */
  lemma UniquesGrowIff(sh: Shape, s: Site, o: Observation, p: string)
    requires SiteOk(sh, s)
    ensures p in Recorded(sh, s, o).pathUniques
            <==> || p in s.pathUniques
                 || (&& o.kind.Pageview? && s.cfg.uniqueByPath
                     && p == o.path && p != "" && p != "__other__" && p != "__none__"
                     && p in Recorded(sh, s, o).cross.slots.admitted)
  {
    if !o.kind.Engagement? {
      PathsShow(sh, s, o);
    }
  }

  // ---------------------------------------------------------------------
  // Maintenance
  // ---------------------------------------------------------------------

  /** A guard with these admitted values holds `v` and has not seen it for longer
      than `after`. */
  ghost predicate LongUnseen(admitted: map<string, int>, v: string, now: int, after: int) {
    v in admitted && now - admitted[v] > after
  }

  /** Some guard of the site labels a series of this family with something it has
      not seen for longer than the site's retention: the pure guard the paths of
      page views, entries and exits, the cross guard the paths of the others, and
      a dimension's guard its values. */
  ghost predicate LabelUnseen(s: Site, n: Name, k: Series, now: int)
    requires AllDims(s.gates)
  {
    match n
    case Pageviews => k.labels == [] && LongUnseen(s.pure.slots.admitted, k.path, now, s.cfg.decayAfter)
    case Entries => k.labels == [] && LongUnseen(s.pure.slots.admitted, k.path, now, s.cfg.decayAfter)
    case Exits => k.labels == [] && LongUnseen(s.pure.slots.admitted, k.path, now, s.cfg.decayAfter)
    case TimeOnPage => LongUnseen(s.cross.slots.admitted, k.path, now, s.cfg.decayAfter)
    case By(d) =>
      || LongUnseen(s.cross.slots.admitted, k.path, now, s.cfg.decayAfter)
      || (k.labels != [] && LongUnseen(s.gates[d].gate.slots.admitted, k.labels[0], now, s.cfg.decayAfter))
  }

  lemma DeadIsUnseen(sh: Shape, s: Site, n: Name, k: Series, now: int)
    requires SiteOk(sh, s)
    ensures Dead(GoneAt(s, now), n, k) <==> LabelUnseen(s, n, k, now)
  {
  }

  /** A series is there after the maintenance of a site, with its count, if and
      only if it was there and is of another site, or no guard that labels it has
      lost sight of the label. */
  lemma MaintainedIff(sh: Shape, r: Registered, domain: string, now: int, n: Name, k: Series)
    requires Ok(sh, r) && domain in r.sites
    ensures var f, f' := Of(r.vecs, n), Of(Maintained(sh, r, domain, now).vecs, n);
            && (k in f' <==> k in f && (k.site == domain ==> !LabelUnseen(r.sites[domain], n, k, now)))
            && (k in f' ==> f'[k] == f[k])
  {
    DeadIsUnseen(sh, r.sites[domain], n, k, now);
  }

  /** A guard after maintenance: it still holds, with its time, what it has not
      lost sight of, and nothing else. */
  ghost predicate KeepsSeen(g: Gate, g': Gate, now: int, after: int) {
    && g'.limits == g.limits && g'.slots.capped == g.slots.capped
    && (forall v :: v in g'.slots.admitted <==> v in g.slots.admitted && !LongUnseen(g.slots.admitted, v, now, after))
    && (forall v :: v in g'.slots.admitted ==> g'.slots.admitted[v] == g.slots.admitted[v])
  }

  ghost predicate LosesOne(g: Gate, now: int, after: int) {
    exists v :: LongUnseen(g.slots.admitted, v, now, after)
  }

  lemma DecayKeepsSeen(g: Gate, now: int, after: int)
    ensures KeepsSeen(g, DecayGate(g, now, after), now, after)
    ensures Expired(g.slots, now, after) != {} <==> LosesOne(g, now, after)
  {
    if Expired(g.slots, now, after) != {} {
      var v :| v in Expired(g.slots, now, after);
      assert LongUnseen(g.slots.admitted, v, now, after);
    }
    if LosesOne(g, now, after) {
      var v :| LongUnseen(g.slots.admitted, v, now, after);
      assert v in Expired(g.slots, now, after);
    }
  }

  ghost predicate Cleared(sh: Shape, s: State, s': State) {
    s' == State(Zeros(sh), s.adds)
  }

  /** What maintenance does to the guards of a site: each keeps exactly what it has
      not lost sight of, a sketch is cleared exactly if a guard that draws on it
      lost something, and the per-path sketches keep the paths that the cross
      guard has not lost. */
  lemma MaintenanceKeepsSeen(sh: Shape, s: Site, now: int, d: Dim, p: string)
    requires SiteOk(sh, s)
    ensures SiteOk(sh, Decayed(sh, s, now))
    ensures var s', after := Decayed(sh, s, now), s.cfg.decayAfter;
            && s'.cfg == s.cfg
            && KeepsSeen(s.pure, s'.pure, now, after) && KeepsSeen(s.cross, s'.cross, now, after)
            && KeepsSeen(s.gates[d].gate, s'.gates[d].gate, now, after)
            && (if LosesOne(s.pure, now, after) || LosesOne(s.cross, now, after)
                then Cleared(sh, s.pathSketch, s'.pathSketch) else s'.pathSketch == s.pathSketch)
            && (if LosesOne(s.gates[d].gate, now, after)
                then Cleared(sh, s.gates[d].sketch, s'.gates[d].sketch) else s'.gates[d].sketch == s.gates[d].sketch)
            && (p in s'.pathUniques
                <==> p in s.pathUniques && !LongUnseen(s.cross.slots.admitted, p, now, after))
  {
    DecayedIsOk(sh, s, now);
    DecayKeepsSeen(s.pure, now, s.cfg.decayAfter);
    DecayKeepsSeen(s.cross, now, s.cfg.decayAfter);
    DecayKeepsSeen(s.gates[d].gate, now, s.cfg.decayAfter);
  }

  lemma MaintainedSites(sh: Shape, r: Registered, domain: string, now: int, other: string)
    requires Ok(sh, r) && domain in r.sites && other in r.sites && other != domain
    ensures other in Maintained(sh, r, domain, now).sites
    ensures Maintained(sh, r, domain, now).sites[other] == r.sites[other]
  {
  }

  lemma {:induction false} OthersStayInOrder(sh: Shape, r: Registered, order: seq<string>, now: int, other: string)
    requires Ok(sh, r) && other in r.sites && other !in order
    ensures Ok(sh, MaintainedAll(sh, r, order, now))
    ensures other in MaintainedAll(sh, r, order, now).sites
    ensures MaintainedAll(sh, r, order, now).sites[other] == r.sites[other]
  {
    MaintainedAllIsOk(sh, r, order, now);
    if order != [] {
      var before, domain := order[..|order| - 1], order[|order| - 1];
      OthersStayInOrder(sh, r, before, now, other);
      MaintainedAllIsOk(sh, r, before, now);
      assert domain in order;
      if domain in r.sites {
        MaintainedSites(sh, MaintainedAll(sh, r, before, now), domain, now, other);
      }
    }
  }

  /** The maintenance of all sites, in any order: a series is there afterwards, with
      its count, if and only if it was there and no guard of its own site that
      labels it had lost sight of the label before. */
  lemma {:induction false} MaintainedAllIff(sh: Shape, r: Registered, order: seq<string>, now: int, n: Name, k: Series)
    requires Ok(sh, r) && forall i, j :: 0 <= i < j < |order| ==> order[i] != order[j]
    requires forall d :: d in order ==> d in r.sites
    ensures var f, f' := Of(r.vecs, n), Of(MaintainedAll(sh, r, order, now).vecs, n);
            && (k in f' <==> k in f && (k.site in order ==> !LabelUnseen(r.sites[k.site], n, k, now)))
            && (k in f' ==> f'[k] == f[k])
  {
    if order != [] {
      var before, domain := order[..|order| - 1], order[|order| - 1];
      MaintainedAllIff(sh, r, before, now, n, k);
      MaintainedAllIsOk(sh, r, before, now);
      assert order == before + [domain];
      OthersStayInOrder(sh, r, before, now, domain);
      MaintainedIff(sh, MaintainedAll(sh, r, before, now), domain, now, n, k);
    }
  }

  // ---------------------------------------------------------------------
  // Configuration
  // ---------------------------------------------------------------------

  function AtLeastOne(n: int): nat {
    if n < 1 then 1 else n
  }

  /** The path guards of a new site. */
  lemma NewSitePaths(sh: Shape, c: Config)
    ensures var s := NewSite(sh, c);
            && s.pure.limits.cap == AtLeastOne(c.pathCap) && s.cross.limits.cap == AtLeastOne(c.crossPathCap)
            && s.pure.limits.minCount == s.cross.limits.minCount == AtLeastOne(c.admitMinCount)
  {
  }

  /** The caps and thresholds of a new site's dimensions, one by one: closed
      dimensions have fixed caps and admit on first sight. */
  lemma NewSiteDims(sh: Shape, c: Config, d: Dim)
    ensures d in NewSite(sh, c).gates
    ensures NewSite(sh, c).gates[d].gate.limits
            == match d
               case Country => Limits(300, 1)
               case Browser => Limits(40, 1)
               case Os => Limits(40, 1)
               case Device => Limits(40, 1)
               case Screen => Limits(40, 1)
               case Asn => Limits(AtLeastOne(c.asnCap), AtLeastOne(c.admitMinCount))
               case Referrer => Limits(AtLeastOne(c.referrerCap), AtLeastOne(c.admitMinCount))
               case Source => Limits(AtLeastOne(c.campaignCap), AtLeastOne(c.admitMinCount))
               case Medium => Limits(AtLeastOne(c.campaignCap), AtLeastOne(c.admitMinCount))
               case Campaign => Limits(AtLeastOne(c.campaignCap), AtLeastOne(c.admitMinCount))
               case Event => Limits(AtLeastOne(c.eventCap), AtLeastOne(c.admitMinCount))
  {
    DimsAreListed();
  }

  /** The configuration a site was last given. */
  ghost function LastConfig(ops: seq<R.Op>, site: string): Option<Config> {
    if ops == [] then None
    else if ops[|ops| - 1].Configure? && ops[|ops| - 1].c.domain == site then Some(ops[|ops| - 1].c)
    else LastConfig(ops[..|ops| - 1], site)
  }

  lemma StepConfigures(sh: Shape, r: Registered, op: R.Op, site: string)
    requires Ok(sh, r)
    ensures var sites := R.Step(sh, r, op).sites;
            && (site in sites <==> site in r.sites || (op.Configure? && op.c.domain == site))
            && (site in sites ==>
                  sites[site].cfg == if op.Configure? && op.c.domain == site then op.c else r.sites[site].cfg)
  {
  }

  /** A site follows its last configuration in all that its guards do not fix:
      path labels, retention and switches. */
  lemma {:induction false} LastConfigApplies(sh: Shape, ops: seq<R.Op>, site: string)
    requires sh.width > 0
    ensures site in R.Run(sh, ops).sites <==> LastConfig(ops, site).Some?
    ensures site in R.Run(sh, ops).sites ==> R.Run(sh, ops).sites[site].cfg == LastConfig(ops, site).value
  {
    if ops != [] {
      LastConfigApplies(sh, ops[..|ops| - 1], site);
      StepConfigures(sh, R.Run(sh, ops[..|ops| - 1]), ops[|ops| - 1], site);
    }
  }

  /** Observations of sites that were not configured by then. */
  ghost function Strays(ops: seq<R.Op>): nat {
    if ops == [] then 0
    else
      var before, op := ops[..|ops| - 1], ops[|ops| - 1];
      Strays(before) + if op.Record? && LastConfig(before, op.o.site).None? then 1 else 0
  }

  lemma StepCountsStray(sh: Shape, r: Registered, op: R.Op)
    requires Ok(sh, r)
    ensures R.Step(sh, r, op).unknown == r.unknown + if op.Record? && op.o.site !in r.sites then 1 else 0
  {
  }

  /** They are counted as unknown, and nothing else is. */
  lemma {:induction false} StraysAreUnknown(sh: Shape, ops: seq<R.Op>)
    requires sh.width > 0
    ensures R.Run(sh, ops).unknown == Strays(ops)
  {
    if ops != [] {
      var before, op := ops[..|ops| - 1], ops[|ops| - 1];
      StraysAreUnknown(sh, before);
      StepCountsStray(sh, R.Run(sh, before), op);
      if op.Record? {
        LastConfigApplies(sh, before, op.o.site);
      }
    }
  }
}
