/** What the registry guarantees on every run: sums over labels stay true totals
    however much is folded or deleted, and closed dimensions are not folded at
    all. */
module RegistryRuns {
  import opened Bags
  import opened Sketch
  import opened Guard
  import opened Families
  import opened Registry

  /** `Started` and `Ended` are what a session tracker reports for a site. */
  datatype Op =
    | Record(o: Observation, isNew: bool)
    | Maintain(domain: string, now: int)
    | Configure(c: Config)
    | Started(domain: string)
    | Ended(domain: string, exitPath: string)

  ghost function Empty(): Registered {
    NOTHING_REGISTERED
  }

  ghost function Step(sh: Shape, r: Registered, op: Op): Registered
    requires Ok(sh, r)
  {
    match op
    case Record(o, isNew) => AfterRecord(sh, r, o, isNew)
    case Maintain(domain, now) => if domain in r.sites then Maintained(sh, r, domain, now) else r
    case Configure(c) => r.(sites := Configured(sh, r.sites, c))
    case Started(domain) =>
      r.(sessionsTotal :=
        r.sessionsTotal[domain := (if domain in r.sessionsTotal then r.sessionsTotal[domain] else 0) + 1])
    case Ended(domain, exitPath) => r.(vecs := r.vecs.(exits := Inc(r.vecs.exits, Series(domain, [], exitPath))))
  }

  lemma StepIsOk(sh: Shape, r: Registered, op: Op)
    requires sh.width > 0 && Ok(sh, r)
    ensures Ok(sh, Step(sh, r, op))
  {
    match op
    case Record(o, isNew) => AfterRecordIsOk(sh, r, o, isNew);
    case Maintain(domain, now) =>
      if domain in r.sites {
        MaintainedIsOk(sh, r, domain, now);
      }
    case Configure(c) => NewSiteIsOk(sh, c);
    case Started(_) =>
    case Ended(_, _) =>
  }

  /** The registry after a run of calls, from nothing. */
  ghost function Run(sh: Shape, ops: seq<Op>): (r: Registered)
    requires sh.width > 0
    ensures Ok(sh, r)
  {
    if ops == [] then
      assert Ok(sh, Empty()) by { NothingIsOk(sh); }
      Empty()
    else
      assert Ok(sh, Step(sh, Run(sh, ops[..|ops| - 1]), ops[|ops| - 1])) by {
        StepIsOk(sh, Run(sh, ops[..|ops| - 1]), ops[|ops| - 1]);
      }
      Step(sh, Run(sh, ops[..|ops| - 1]), ops[|ops| - 1])
  }

  // ---------------------------------------------------------------------
  // The ledger
  // ---------------------------------------------------------------------

  /** The series a call counts in a family, if any. */
  ghost function SeriesOf(sh: Shape, r: Registered, op: Op, n: Name): Option<Series>
    requires Ok(sh, r)
  {
    match op
    case Record(o, isNew) => if o.site in r.sites then CountedIn(sh, r.sites[o.site], o, isNew, n) else None
    case Ended(domain, exitPath) => if n.Exits? then Some(Series(domain, [], exitPath)) else None
    case _ => None
  }

  /** The series a call deletes from a family. */
  ghost function DeletedBy(r: Registered, op: Op, n: Name): Family {
    if op.Maintain? && op.domain in r.sites then
      Only(Of(r.vecs, n), DeadSeries(Of(r.vecs, n), op.domain, GoneAt(r.sites[op.domain], op.now), n))
    else map[]
  }

  /** How often a run counted a series that matches `q`. */
  ghost function Booked(sh: Shape, ops: seq<Op>, n: Name, q: Query): nat
    requires sh.width > 0
  {
    if ops == [] then 0
    else
      var k := SeriesOf(sh, Run(sh, ops[..|ops| - 1]), ops[|ops| - 1], n);
      Booked(sh, ops[..|ops| - 1], n, q) + if Books(k, q) then 1 else 0
  }

  /** How much of what matches `q` a run deleted. */
  ghost function Deleted(sh: Shape, ops: seq<Op>, n: Name, q: Query): nat
    requires sh.width > 0
  {
    if ops == [] then 0
    else
      Deleted(sh, ops[..|ops| - 1], n, q)
      + Mass(DeletedBy(Run(sh, ops[..|ops| - 1]), ops[|ops| - 1], n), q)
  }

  /** What is there now. */
  ghost function Live(sh: Shape, ops: seq<Op>, n: Name, q: Query): nat
    requires sh.width > 0
  {
    Mass(Of(Run(sh, ops).vecs, n), q)
  }

  lemma RecordChangesFamily(sh: Shape, r: Registered, o: Observation, isNew: bool, n: Name)
    requires Ok(sh, r)
    ensures Of(AfterRecord(sh, r, o, isNew).vecs, n)
            == if o.site in r.sites then IncIf(Of(r.vecs, n), CountedIn(sh, r.sites[o.site], o, isNew, n))
               else Of(r.vecs, n)
  {
  }

  lemma MaintainChangesFamily(sh: Shape, r: Registered, op: Op, n: Name)
    requires Ok(sh, r) && op.Maintain?
    ensures Of(Step(sh, r, op).vecs, n) == Of(r.vecs, n) - DeletedBy(r, op, n).Keys
  {
    if op.domain in r.sites {
      var f := Of(r.vecs, n);
      var dead := DeadSeries(f, op.domain, GoneAt(r.sites[op.domain], op.now), n);
      assert Only(f, dead).Keys == dead;
    }
  }

  ghost predicate Books(k: Option<Series>, q: Query) {
    k.Some? && Matches(q, k.value)
  }

  lemma StepBalances(sh: Shape, r: Registered, op: Op, n: Name, q: Query)
    requires Ok(sh, r)
    ensures Mass(Of(Step(sh, r, op).vecs, n), q) + Mass(DeletedBy(r, op, n), q)
            == Mass(Of(r.vecs, n), q) + if Books(SeriesOf(sh, r, op, n), q) then 1 else 0
  {
    if op.Maintain? {
      MaintainChangesFamily(sh, r, op, n);
      DeletionSplits(r, op, n, q);
    } else {
      NothingHasNoMass(q);
      var k := SeriesOf(sh, r, op, n);
      if op.Record? {
        RecordChangesFamily(sh, r, op.o, op.isNew, n);
      }
      assert Of(Step(sh, r, op).vecs, n) == IncIf(Of(r.vecs, n), k);
      if k.Some? {
        MassOfInc(Of(r.vecs, n), k.value, q);
      }
    }
  }

  lemma NothingHasNoMass(q: Query)
    ensures Mass(map[], q) == 0
  {
    assert Slice(map[], q) == map[];
  }

  /** Every count made is still there or was deleted, for every selection. */
  lemma {:induction false} LedgerBalances(sh: Shape, ops: seq<Op>, n: Name, q: Query)
    requires sh.width > 0
    ensures Live(sh, ops, n, q) + Deleted(sh, ops, n, q) == Booked(sh, ops, n, q)
  {
    if ops == [] {
      assert Of(Empty().vecs, n) == map[];
      NothingHasNoMass(q);
    } else {
      LedgerBalances(sh, ops[..|ops| - 1], n, q);
      StepBalances(sh, Run(sh, ops[..|ops| - 1]), ops[|ops| - 1], n, q);
    }
  }

  lemma DeletionSplits(r: Registered, op: Op, n: Name, q: Query)
    ensures Mass(Of(r.vecs, n), q)
            == Mass(Of(r.vecs, n) - DeletedBy(r, op, n).Keys, q) + Mass(DeletedBy(r, op, n), q)
  {
    var f := Of(r.vecs, n);
    MassSplits(f, DeletedBy(r, op, n).Keys, q);
    assert Only(f, DeletedBy(r, op, n).Keys) == DeletedBy(r, op, n);
  }

  /** Without maintenance nothing is deleted. */
  lemma {:induction false} NothingDeleted(sh: Shape, ops: seq<Op>, n: Name, q: Query)
    requires sh.width > 0 && forall op :: op in ops ==> !op.Maintain?
    ensures Deleted(sh, ops, n, q) == 0
  {
    if ops != [] {
      NothingDeleted(sh, ops[..|ops| - 1], n, q);
      assert ops[|ops| - 1] in ops;
      NothingHasNoMass(q);
    }
  }

  // ---------------------------------------------------------------------
  // Marginals
  // ---------------------------------------------------------------------

  /** The sites configured so far. */
  ghost function Sites(ops: seq<Op>): set<string> {
    if ops == [] then {}
    else Sites(ops[..|ops| - 1]) + if ops[|ops| - 1].Configure? then {ops[|ops| - 1].c.domain} else {}
  }

  lemma StepConfigures(sh: Shape, r: Registered, op: Op)
    requires Ok(sh, r)
    ensures Step(sh, r, op).sites.Keys == r.sites.Keys + if op.Configure? then {op.c.domain} else {}
  {
  }

  lemma {:induction false} SitesAreConfigured(sh: Shape, ops: seq<Op>)
    requires sh.width > 0
    ensures Run(sh, ops).sites.Keys == Sites(ops)
  {
    if ops != [] {
      SitesAreConfigured(sh, ops[..|ops| - 1]);
      StepConfigures(sh, Run(sh, ops[..|ops| - 1]), ops[|ops| - 1]);
    }
  }

  /** An event of the site that counts towards the dimension. */
  ghost predicate IsEvent(op: Op, site: string, d: Dim) {
    op.Record? && op.o.site == site && if d.Event? then op.o.kind.Custom? else op.o.kind.Pageview?
  }

  /** How many events of the site count towards the dimension. */
  ghost function Events(ops: seq<Op>, site: string, d: Dim): nat {
    if ops == [] then 0
    else
      var before, op := ops[..|ops| - 1], ops[|ops| - 1];
      Events(before, site, d) + if site in Sites(before) && IsEvent(op, site, d) then 1 else 0
  }

  /** The label the dimension's guard gives an observation. */
  ghost function ValueLabel(sh: Shape, r: Registered, o: Observation, d: Dim): string
    requires Ok(sh, r) && o.site in r.sites
  {
    OfferOwn(sh, r.sites[o.site].gates[d], ValueOf(o, d), o.at).shown
  }

  /** The label the cross guard gives an observation's path. */
  ghost function CrossLabel(sh: Shape, r: Registered, o: Observation): string
    requires Ok(sh, r) && o.site in r.sites
  {
    CrossPath(sh, r.sites[o.site], o).shown
  }

  ghost predicate IsLabelled(sh: Shape, r: Registered, op: Op, site: string, d: Dim, v: string)
    requires Ok(sh, r)
  {
    IsEvent(op, site, d) && site in r.sites && ValueLabel(sh, r, op.o, d) == v
  }

  /** How many events of the dimension its guard labelled `v`. */
  ghost function Labelled(sh: Shape, ops: seq<Op>, site: string, d: Dim, v: string): nat
    requires sh.width > 0
  {
    if ops == [] then 0
    else
      var before, op := ops[..|ops| - 1], ops[|ops| - 1];
      Labelled(sh, before, site, d, v) + if IsLabelled(sh, Run(sh, before), op, site, d, v) then 1 else 0
  }

  /** How many page views of the site the cross guard labelled `p`. */
  ghost function CrossLabelled(sh: Shape, ops: seq<Op>, site: string, p: string): nat
    requires sh.width > 0
  {
    if ops == [] then 0
    else
      var before, op := ops[..|ops| - 1], ops[|ops| - 1];
      var r := Run(sh, before);
      CrossLabelled(sh, before, site, p)
      + if op.Record? && op.o.site == site && op.o.kind.Pageview? && site in r.sites
           && CrossLabel(sh, r, op.o) == p then 1 else 0
  }

  /** Every dimension's path label has been enabled for the site all along. */
  ghost predicate PathEnabled(ops: seq<Op>, site: string, d: Dim) {
    forall op :: op in ops && op.Configure? && op.c.domain == site ==> d in op.c.pathLabels
  }

  lemma StepKeepsPathEnabled(sh: Shape, r: Registered, op: Op, site: string, d: Dim)
    requires Ok(sh, r) && (site in r.sites ==> d in r.sites[site].cfg.pathLabels)
    requires op.Configure? && op.c.domain == site ==> d in op.c.pathLabels
    ensures site in Step(sh, r, op).sites ==> d in Step(sh, r, op).sites[site].cfg.pathLabels
  {
  }

  lemma {:induction false} PathStaysEnabled(sh: Shape, ops: seq<Op>, site: string, d: Dim)
    requires sh.width > 0 && PathEnabled(ops, site, d)
    ensures site in Run(sh, ops).sites ==> d in Run(sh, ops).sites[site].cfg.pathLabels
  {
    if ops != [] {
      PathStaysEnabled(sh, ops[..|ops| - 1], site, d);
      assert ops[|ops| - 1] in ops;
      StepKeepsPathEnabled(sh, Run(sh, ops[..|ops| - 1]), ops[|ops| - 1], site, d);
    }
  }

  /** Which calls count towards which sums of a dimension's family. */
  lemma DimBooks(sh: Shape, r: Registered, op: Op, site: string, d: Dim, v: string, p: string)
    requires Ok(sh, r)
    ensures var counts := IsEvent(op, site, d) && site in r.sites;
            && (Books(SeriesOf(sh, r, op, By(d)), Query(site, None, None)) <==> counts)
            && (Books(SeriesOf(sh, r, op, By(d)), Query(site, Some(v), None))
                <==> IsLabelled(sh, r, op, site, d, v))
            && (counts && d in r.sites[site].cfg.pathLabels ==>
                  (Books(SeriesOf(sh, r, op, By(d)), Query(site, None, Some(p)))
                   <==> CrossLabel(sh, r, op.o) == p))
  {
  }

  lemma {:induction false} FamilyBooksEvents(sh: Shape, ops: seq<Op>, site: string, d: Dim)
    requires sh.width > 0
    ensures Booked(sh, ops, By(d), Query(site, None, None)) == Events(ops, site, d)
  {
    if ops != [] {
      FamilyBooksEvents(sh, ops[..|ops| - 1], site, d);
      SitesAreConfigured(sh, ops[..|ops| - 1]);
      DimBooks(sh, Run(sh, ops[..|ops| - 1]), ops[|ops| - 1], site, d, "", "");
    }
  }

  lemma {:induction false} ValuesBookLabels(sh: Shape, ops: seq<Op>, site: string, d: Dim, v: string)
    requires sh.width > 0
    ensures Booked(sh, ops, By(d), Query(site, Some(v), None)) == Labelled(sh, ops, site, d, v)
  {
    if ops != [] {
      ValuesBookLabels(sh, ops[..|ops| - 1], site, d, v);
      DimBooks(sh, Run(sh, ops[..|ops| - 1]), ops[|ops| - 1], site, d, v, "");
    }
  }

  lemma {:induction false} PathsBookCrossLabels(sh: Shape, ops: seq<Op>, site: string, d: Dim, p: string)
    requires sh.width > 0 && !d.Event? && PathEnabled(ops, site, d)
    ensures Booked(sh, ops, By(d), Query(site, None, Some(p))) == CrossLabelled(sh, ops, site, p)
  {
    if ops != [] {
      var before := ops[..|ops| - 1];
      assert PathEnabled(before, site, d);
      PathsBookCrossLabels(sh, before, site, d, p);
      PathStaysEnabled(sh, before, site, d);
      DimBooks(sh, Run(sh, before), ops[|ops| - 1], site, d, "", p);
    }
  }

  /** Marginals are exact, however much is folded: what a dimension's family
      holds, plus what maintenance deleted from it, sums to the matching events
      in all, to the observations its guard labelled with a value for that
      value, and to the page views the cross guard labelled with a path for
      that path, the same in every path-labelled page-view family. */
  lemma MarginalsAreExact(sh: Shape, ops: seq<Op>, site: string, d: Dim, v: string, p: string)
    requires sh.width > 0
    ensures var all := Query(site, None, None);
            Live(sh, ops, By(d), all) + Deleted(sh, ops, By(d), all) == Events(ops, site, d)
    ensures var of := Query(site, Some(v), None);
            Live(sh, ops, By(d), of) + Deleted(sh, ops, By(d), of) == Labelled(sh, ops, site, d, v)
    ensures !d.Event? && PathEnabled(ops, site, d) ==>
              var on := Query(site, None, Some(p));
              Live(sh, ops, By(d), on) + Deleted(sh, ops, By(d), on) == CrossLabelled(sh, ops, site, p)
  {
    LedgerBalances(sh, ops, By(d), Query(site, None, None));
    FamilyBooksEvents(sh, ops, site, d);
    LedgerBalances(sh, ops, By(d), Query(site, Some(v), None));
    ValuesBookLabels(sh, ops, site, d, v);
    if !d.Event? && PathEnabled(ops, site, d) {
      LedgerBalances(sh, ops, By(d), Query(site, None, Some(p)));
      PathsBookCrossLabels(sh, ops, site, d, p);
    }
  }

  /** Without maintenance all path-labelled page-view families agree on every path. */
  lemma FamiliesAgreeOnPaths(sh: Shape, ops: seq<Op>, site: string, d1: Dim, d2: Dim, p: string)
    requires sh.width > 0 && !d1.Event? && !d2.Event?
    requires PathEnabled(ops, site, d1) && PathEnabled(ops, site, d2)
    requires forall op :: op in ops ==> !op.Maintain?
    ensures Live(sh, ops, By(d1), Query(site, None, Some(p))) == Live(sh, ops, By(d2), Query(site, None, Some(p)))
  {
    MarginalsAreExact(sh, ops, site, d1, p, p);
    MarginalsAreExact(sh, ops, site, d2, p, p);
    NothingDeleted(sh, ops, By(d1), Query(site, None, Some(p)));
    NothingDeleted(sh, ops, By(d2), Query(site, None, Some(p)));
  }

  lemma PageviewBooks(sh: Shape, r: Registered, op: Op, site: string, d: Dim)
    requires Ok(sh, r) && !d.Event?
    ensures Books(SeriesOf(sh, r, op, Pageviews), Query(site, None, None))
            <==> IsEvent(op, site, d) && site in r.sites
  {
  }

  lemma {:induction false} PageviewsBookEvents(sh: Shape, ops: seq<Op>, site: string, d: Dim)
    requires sh.width > 0 && !d.Event?
    ensures Booked(sh, ops, Pageviews, Query(site, None, None)) == Events(ops, site, d)
  {
    if ops != [] {
      PageviewsBookEvents(sh, ops[..|ops| - 1], site, d);
      SitesAreConfigured(sh, ops[..|ops| - 1]);
      PageviewBooks(sh, Run(sh, ops[..|ops| - 1]), ops[|ops| - 1], site, d);
    }
  }

  /** The path family and every page-view dimension add up to the same total,
      the site's page views, although their guards fold and delete separately. */
  lemma PageviewFamiliesAgree(sh: Shape, ops: seq<Op>, site: string, d: Dim)
    requires sh.width > 0 && !d.Event?
    ensures var all := Query(site, None, None);
            Live(sh, ops, Pageviews, all) + Deleted(sh, ops, Pageviews, all)
            == Live(sh, ops, By(d), all) + Deleted(sh, ops, By(d), all)
            == Events(ops, site, d)
  {
    LedgerBalances(sh, ops, Pageviews, Query(site, None, None));
    PageviewsBookEvents(sh, ops, site, d);
    MarginalsAreExact(sh, ops, site, d, "", "");
  }

  /** An engagement with the site that reports a time. */
  ghost predicate IsTiming(op: Op, site: string) {
    op.Record? && op.o.site == site && op.o.kind.Engagement? && op.o.timed
  }

  ghost function Timings(ops: seq<Op>, site: string): nat {
    if ops == [] then 0
    else
      var before, op := ops[..|ops| - 1], ops[|ops| - 1];
      Timings(before, site) + if site in Sites(before) && IsTiming(op, site) then 1 else 0
  }

  lemma TimingBooks(sh: Shape, r: Registered, op: Op, site: string)
    requires Ok(sh, r)
    ensures Books(SeriesOf(sh, r, op, TimeOnPage), Query(site, None, None))
            <==> IsTiming(op, site) && site in r.sites
  {
  }

  lemma {:induction false} TimingsAreBooked(sh: Shape, ops: seq<Op>, site: string)
    requires sh.width > 0
    ensures Booked(sh, ops, TimeOnPage, Query(site, None, None)) == Timings(ops, site)
  {
    if ops != [] {
      TimingsAreBooked(sh, ops[..|ops| - 1], site);
      SitesAreConfigured(sh, ops[..|ops| - 1]);
      TimingBooks(sh, Run(sh, ops[..|ops| - 1]), ops[|ops| - 1], site);
    }
  }

  /** Time on page, deletions included, is observed once for every engagement that
      reports a time, under whatever labels. */
  lemma TimingsAreExact(sh: Shape, ops: seq<Op>, site: string)
    requires sh.width > 0
    ensures var all := Query(site, None, None);
            Live(sh, ops, TimeOnPage, all) + Deleted(sh, ops, TimeOnPage, all) == Timings(ops, site)
  {
    LedgerBalances(sh, ops, TimeOnPage, Query(site, None, None));
    TimingsAreBooked(sh, ops, site);
  }

  /** Every entry series has a page-view series that counts at least as much. */
  ghost predicate EntriesWithin(v: Vecs) {
    forall k :: k in v.entries ==> k in v.pageviews && v.entries[k] <= v.pageviews[k]
  }

  lemma MaintainKeepsEntriesWithin(sh: Shape, r: Registered, domain: string, now: int)
    requires EntriesWithin(r.vecs) && domain in r.sites
    ensures EntriesWithin(Maintained(sh, r, domain, now).vecs)
  {
    var g := GoneAt(r.sites[domain], now);
    forall k | k in r.vecs.entries
      ensures k in DeadSeries(r.vecs.entries, domain, g, Entries)
              <==> k in DeadSeries(r.vecs.pageviews, domain, g, Pageviews)
    {
    }
  }

  lemma StepKeepsEntriesWithin(sh: Shape, r: Registered, op: Op)
    requires Ok(sh, r) && EntriesWithin(r.vecs)
    ensures EntriesWithin(Step(sh, r, op).vecs)
  {
    if op.Maintain? && op.domain in r.sites {
      MaintainKeepsEntriesWithin(sh, r, op.domain, op.now);
    } else if op.Record? {
      RecordChangesFamily(sh, r, op.o, op.isNew, Entries);
      RecordChangesFamily(sh, r, op.o, op.isNew, Pageviews);
    }
  }

  /** On every run and for every path label, sessions that began there never
      outnumber the page views there: both families name the path by the same
      answer of the same guard and lose it at the same maintenance. */
  lemma {:induction false} EntriesNeverExceedPageviews(sh: Shape, ops: seq<Op>)
    requires sh.width > 0
    ensures EntriesWithin(Run(sh, ops).vecs)
  {
    if ops != [] {
      EntriesNeverExceedPageviews(sh, ops[..|ops| - 1]);
      StepKeepsEntriesWithin(sh, Run(sh, ops[..|ops| - 1]), ops[|ops| - 1]);
    }
  }

  // ---------------------------------------------------------------------
  // Closed dimensions
  // ---------------------------------------------------------------------

  /** How many page views of the site have the value `v`; the empty one shows as absent. */
  ghost function Valued(ops: seq<Op>, site: string, d: Dim, v: string): nat {
    if ops == [] then 0
    else
      var before, op := ops[..|ops| - 1], ops[|ops| - 1];
      Valued(before, site, d, v)
      + if site in Sites(before) && HasValue(op, site, d, v) then 1 else 0
  }

  ghost predicate HasValue(op: Op, site: string, d: Dim, v: string) {
    IsEvent(op, site, d)
    && if d in op.o.values && op.o.values[d] != "" then v == op.o.values[d] else v == NONE
  }

  /** The observation's value of the dimension is one of `values`, if it has one. */
  ghost predicate OneOf(o: Observation, d: Dim, values: set<string>) {
    d in o.values && o.values[d] != "" ==> o.values[d] in values
  }

  /** Every value the run offers to the dimension is one of `values`. */
  ghost predicate Offers(ops: seq<Op>, site: string, d: Dim, values: set<string>) {
    forall op :: op in ops && IsEvent(op, site, d) ==> OneOf(op.o, d, values)
  }

  /** A guard that has room for every value it may be offered. */
  ghost predicate Roomy(g: Gate, values: set<string>) {
    && g.limits.minCount == 1
    && |values| <= g.limits.cap
    && g.slots.admitted.Keys <= values
    && g.slots.capped == 0
  }

  lemma RoomyNeverFolds(sh: Shape, g: Gate, s: State, v: string, now: int, values: set<string>)
    requires GridOk(sh, s.grid) && Roomy(g, values) && (v == "" || v in values)
    ensures Offer(sh, g, s, v, now).shown == if v == "" then NONE else v
    ensures Roomy(Offer(sh, g, s, v, now).gate, values)
  {
    if v != "" && v !in g.slots.admitted {
      assert values == g.slots.admitted.Keys + (values - g.slots.admitted.Keys);
      assert |g.slots.admitted.Keys| == |g.slots.admitted|;
      assert v in values - g.slots.admitted.Keys;
    }
  }

  ghost predicate RoomyAt(r: Registered, site: string, d: Dim, values: set<string>) {
    site in r.sites ==> d in r.sites[site].gates && Roomy(r.sites[site].gates[d].gate, values)
  }

  lemma RecordStaysRoomy(sh: Shape, r: Registered, op: Op, site: string, d: Dim, values: set<string>)
    requires Ok(sh, r) && op.Record? && RoomyAt(r, site, d, values)
    requires Closed(d) && (IsEvent(op, site, d) ==> OneOf(op.o, d, values))
    ensures RoomyAt(Step(sh, r, op), site, d, values)
  {
    if IsEvent(op, site, d) && site in r.sites {
      var g := r.sites[site].gates[d];
      RoomyNeverFolds(sh, g.gate, g.sketch, ValueOf(op.o, d), op.o.at, values);
    }
  }

  lemma RoomyLabelIsValue(sh: Shape, r: Registered, op: Op, site: string, d: Dim, values: set<string>, v: string)
    requires Ok(sh, r) && RoomyAt(r, site, d, values)
    requires Closed(d) && (IsEvent(op, site, d) ==> OneOf(op.o, d, values))
    ensures IsLabelled(sh, r, op, site, d, v) <==> site in r.sites && HasValue(op, site, d, v)
  {
    if IsEvent(op, site, d) && site in r.sites {
      var g := r.sites[site].gates[d];
      RoomyNeverFolds(sh, g.gate, g.sketch, ValueOf(op.o, d), op.o.at, values);
    }
  }

  lemma NewSiteIsRoomy(sh: Shape, c: Config, d: Dim, values: set<string>)
    requires Closed(d) && |values| <= FixedCap(d)
    ensures d in NewSite(sh, c).gates && Roomy(NewSite(sh, c).gates[d].gate, values)
  {
    DimsAreListed();
  }

  lemma DecayedStaysRoomy(sh: Shape, s: Site, now: int, d: Dim, values: set<string>)
    requires d in s.gates && Roomy(s.gates[d].gate, values)
    ensures d in Decayed(sh, s, now).gates && Roomy(Decayed(sh, s, now).gates[d].gate, values)
  {
  }

  lemma StepStaysRoomy(sh: Shape, r: Registered, op: Op, site: string, d: Dim, values: set<string>)
    requires Ok(sh, r) && !op.Record? && RoomyAt(r, site, d, values)
    requires Closed(d) && |values| <= FixedCap(d)
    ensures RoomyAt(Step(sh, r, op), site, d, values)
  {
    if op.Configure? {
      NewSiteIsRoomy(sh, op.c, d, values);
    } else if op.Maintain? && op.domain == site && site in r.sites {
      DecayedStaysRoomy(sh, r.sites[site], op.now, d, values);
    }
  }

  lemma {:induction false} ClosedStaysRoomy(sh: Shape, ops: seq<Op>, site: string, d: Dim, values: set<string>)
    requires sh.width > 0 && Closed(d) && |values| <= FixedCap(d) && Offers(ops, site, d, values)
    ensures RoomyAt(Run(sh, ops), site, d, values)
  {
    if ops != [] {
      var before, op := ops[..|ops| - 1], ops[|ops| - 1];
      assert op in ops;
      ClosedStaysRoomy(sh, before, site, d, values);
      if op.Record? {
        RecordStaysRoomy(sh, Run(sh, before), op, site, d, values);
      } else {
        StepStaysRoomy(sh, Run(sh, before), op, site, d, values);
      }
    }
  }

  lemma {:induction false} ClosedLabelsAreValues(
    sh: Shape, ops: seq<Op>, site: string, d: Dim, values: set<string>, v: string)
    requires sh.width > 0 && Closed(d) && |values| <= FixedCap(d) && Offers(ops, site, d, values)
    ensures Labelled(sh, ops, site, d, v) == Valued(ops, site, d, v)
  {
    if ops != [] {
      var before, op := ops[..|ops| - 1], ops[|ops| - 1];
      assert op in ops;
      ClosedLabelsAreValues(sh, before, site, d, values, v);
      ClosedStaysRoomy(sh, before, site, d, values);
      SitesAreConfigured(sh, before);
      RoomyLabelIsValue(sh, Run(sh, before), op, site, d, values, v);
    }
  }

  /** A closed dimension that meets no more values than it has slots is never
      folded: each value's marginal, deletions included, is the true count of
      page views with that value. */
  lemma ClosedMarginalsAreTrueCounts(
    sh: Shape, ops: seq<Op>, site: string, d: Dim, values: set<string>, v: string)
    requires sh.width > 0 && Closed(d) && |values| <= FixedCap(d) && Offers(ops, site, d, values)
    ensures var of := Query(site, Some(v), None);
            Live(sh, ops, By(d), of) + Deleted(sh, ops, By(d), of) == Valued(ops, site, d, v)
    ensures site in Run(sh, ops).sites ==> Run(sh, ops).sites[site].gates[d].gate.slots.capped == 0
  {
    MarginalsAreExact(sh, ops, site, d, v, v);
    ClosedLabelsAreValues(sh, ops, site, d, values, v);
    ClosedStaysRoomy(sh, ops, site, d, values);
  }
}
