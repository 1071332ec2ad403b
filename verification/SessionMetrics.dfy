/** The registry together with its session trackers, one per site
    (internal/aggregate/registry.go and internal/sketch/session.go): a page view
    touches the tracker of its site under the path label it was admitted with,
    the tracker's answer decides whether it is an entry, and what the tracker
    reports comes back as sessions and exits. */
module SessionMetrics {
  import opened Bags
  import opened Sketch
  import opened Guard
  import opened Families
  import opened Registry
  import R = RegistryRuns
  import Tracker = Sessions
  import TrackerRuns = SessionRuns

  const SESSION_CAP := 200_000

  datatype Tracked = Tracked(cfg: Tracker.Config, state: Tracker.State)

  /** The trackers, and everything the registry was told; the registry itself is
      `R.Run` of that. */
  datatype World = World(ops: seq<R.Op>, trackers: map<string, Tracked>)

  datatype Call =
    | Configure(c: Config)
    | Record(o: Observation, visitor: Tracker.Id)
    | Maintain(domain: string, now: int)

  /** What a tracker reports during one call. */
  datatype Reports = Reports(starts: seq<string>, ends: seq<Tracker.Ended>)

  const NOTHING := Reports([], [])

  function NewTracked(c: Config): Tracked {
    Tracked(
      Tracker.Config(c.sessionTtl, SESSION_CAP), Tracker.State(map[], 0, multiset{}, multiset{}))
  }

  ghost predicate Reported(t: Tracker.State, rep: Reports, t': Tracker.State) {
    && t'.started == t.started + multiset(rep.starts)
    && t'.ended == t.ended + multiset(rep.ends)
  }

  function StartsFed(site: string, n: nat): seq<R.Op> {
    if n == 0 then [] else StartsFed(site, n - 1) + [R.Started(site)]
  }

  function EndsFed(site: string, ends: seq<Tracker.Ended>): seq<R.Op> {
    if ends == [] then []
    else EndsFed(site, ends[..|ends| - 1]) + [R.Ended(site, ends[|ends| - 1].exit)]
  }

  /** What the registry is told of the reports. */
  function Fed(site: string, rep: Reports): seq<R.Op> {
    StartsFed(site, |rep.starts|) + EndsFed(site, rep.ends)
  }

  /** The label of an observation's path, which names the tracker's paths, too. */
  ghost function PathShown(sh: Shape, r: Registered, o: Observation): string
    requires Ok(sh, r)
  {
    if o.site in r.sites then PurePath(sh, r.sites[o.site], o).shown else OTHER
  }

  /** The tracker's part in an observation: a page view touches, an engagement
      extends, a custom event does neither. */
  ghost predicate Listens(t: Tracked, o: Observation, visitor: Tracker.Id, path: string, t': Tracked) {
    && t'.cfg == t.cfg
    && match o.kind
       case Pageview => Tracker.Step(t.cfg, t.state, Tracker.Touch(visitor, path, o.at), t'.state)
       case Engagement => Tracker.Step(t.cfg, t.state, Tracker.Extend(visitor, o.at), t'.state)
       case Custom => t'.state == t.state
  }

  /** What `Touch` answers. */
  predicate IsNew(t: Tracked, o: Observation, visitor: Tracker.Id) {
    o.kind.Pageview? && !Tracker.Continues(t.cfg.ttl, t.state.live, visitor, o.at)
  }

  ghost predicate Step(sh: Shape, w: World, call: Call, rep: Reports, w': World)
    requires sh.width > 0
  {
    match call
    case Configure(c) =>
      && rep == NOTHING
      && w' == World(w.ops + [R.Configure(c)],
                     if c.domain in w.trackers then w.trackers else w.trackers[c.domain := NewTracked(c)])
    case Record(o, visitor) =>
      if o.site !in w.trackers then rep == NOTHING && w' == w.(ops := w.ops + [R.Record(o, false)])
      else
        var t := w.trackers[o.site];
        && o.site in w'.trackers
        && w'.trackers == w.trackers[o.site := w'.trackers[o.site]]
        && Listens(t, o, visitor, PathShown(sh, R.Run(sh, w.ops), o), w'.trackers[o.site])
        && Reported(t.state, rep, w'.trackers[o.site].state)
        && w'.ops == w.ops + Fed(o.site, rep) + [R.Record(o, IsNew(t, o, visitor))]
    case Maintain(domain, now) =>
      if domain !in w.trackers then rep == NOTHING && w' == w.(ops := w.ops + [R.Maintain(domain, now)])
      else
        var t := w.trackers[domain];
        && domain in w'.trackers
        && w'.trackers == w.trackers[domain := w'.trackers[domain]]
        && w'.trackers[domain].cfg == t.cfg
        && Tracker.Step(t.cfg, t.state, Tracker.Sweep(now), w'.trackers[domain].state)
        && Reported(t.state, rep, w'.trackers[domain].state)
        && w'.ops == w.ops + Fed(domain, rep) + [R.Maintain(domain, now)]
  }

  ghost predicate IsRun(sh: Shape, ws: seq<World>, calls: seq<Call>, reps: seq<Reports>)
    requires sh.width > 0
    decreases |calls|
  {
    && |ws| == |calls| + 1 && |reps| == |calls|
    && if calls == [] then ws[0] == World([], map[])
       else
         && IsRun(sh, ws[..|calls|], calls[..|calls| - 1], reps[..|calls| - 1])
         && Step(sh, ws[|calls| - 1], calls[|calls| - 1], reps[|calls| - 1], ws[|calls|])
  }

  // ---------------------------------------------------------------------
  // What the counters say
  // ---------------------------------------------------------------------

  function SessionsTotal(r: Registered, site: string): nat {
    if site in r.sessionsTotal then r.sessionsTotal[site] else 0
  }

  function All(site: string): Query {
    Query(site, None, None)
  }

  function On(site: string, path: string): Query {
    Query(site, None, Some(path))
  }

  /** What was counted for a site: sessions, page views, entries and exits, the
      last two also for one path. */
  datatype Tally = Tally(sessions: nat, views: nat, entries: nat, entriesOn: nat, exits: nat, exitsOn: nat)

  /** What a family has counted of a selection, after some calls. */
  type Books = (seq<R.Op>, Name, Query) -> nat

  ghost function BooksOf(sh: Shape): Books
    requires sh.width > 0
  {
    (ops: seq<R.Op>, n: Name, q: Query) => R.Booked(sh, ops, n, q)
  }

  ghost function TotalOf(sh: Shape, site: string): seq<R.Op> -> nat
    requires sh.width > 0
  {
    (ops: seq<R.Op>) => SessionsTotal(R.Run(sh, ops), site)
  }

  ghost function TallyBy(total: seq<R.Op> -> nat, books: Books, site: string, p: string): seq<R.Op> -> Tally {
    (ops: seq<R.Op>) => Tally(
      total(ops), books(ops, Pageviews, All(site)), books(ops, Entries, All(site)), books(ops, Entries, On(site, p)),
      books(ops, Exits, All(site)), books(ops, Exits, On(site, p)))
  }

  ghost function TallyOf(sh: Shape, site: string, p: string): seq<R.Op> -> Tally
    requires sh.width > 0
  {
    TallyBy(TotalOf(sh, site), BooksOf(sh), site, p)
  }

  ghost function SitesOf(sh: Shape): seq<R.Op> -> map<string, Site>
    requires sh.width > 0
  {
    (ops: seq<R.Op>) => R.Run(sh, ops).sites
  }

  lemma BookedOneMore(sh: Shape, ops: seq<R.Op>, op: R.Op, n: Name, q: Query)
    requires sh.width > 0
    ensures R.Booked(sh, ops + [op], n, q)
            == R.Booked(sh, ops, n, q) + if R.Books(R.SeriesOf(sh, R.Run(sh, ops), op, n), q) then 1 else 0
  {
    assert (ops + [op])[..|ops|] == ops;
  }

  lemma RunOneMore(sh: Shape, ops: seq<R.Op>, op: R.Op)
    requires sh.width > 0
    ensures R.Run(sh, ops + [op]) == R.Step(sh, R.Run(sh, ops), op)
  {
    assert (ops + [op])[..|ops|] == ops;
  }

  lemma ReportBooks(sh: Shape, ops: seq<R.Op>, op: R.Op, n: Name, q: Query)
    requires sh.width > 0 && (op.Started? || op.Ended?)
    ensures R.Booked(sh, ops + [op], n, q)
            == R.Booked(sh, ops, n, q)
               + if n.Exits? && op.Ended? && Matches(q, Series(op.domain, [], op.exitPath)) then 1 else 0
  {
    BookedOneMore(sh, ops, op, n, q);
  }

  /** What a report adds. */
  function AfterReport(t: Tally, op: R.Op, site: string, p: string): Tally
    requires op.Started? || op.Ended?
  {
    if op.domain != site then t
    else if op.Started? then t.(sessions := t.sessions + 1)
    else t.(exits := t.exits + 1, exitsOn := t.exitsOn + if op.exitPath == p then 1 else 0)
  }

  ghost predicate BooksReport(books: Books, ops: seq<R.Op>, op: R.Op)
    requires op.Started? || op.Ended?
  {
    forall n, q ::
      books(ops + [op], n, q)
      == books(ops, n, q) + if n.Exits? && op.Ended? && Matches(q, Series(op.domain, [], op.exitPath)) then 1 else 0
  }

  lemma ReportTalliesBy(
    total: seq<R.Op> -> nat, books: Books, ops: seq<R.Op>, op: R.Op, site: string, p: string)
    requires op.Started? || op.Ended?
    requires total(ops + [op]) == total(ops) + if op == R.Started(site) then 1 else 0
    requires BooksReport(books, ops, op)
    ensures TallyBy(total, books, site, p)(ops + [op]) == AfterReport(TallyBy(total, books, site, p)(ops), op, site, p)
  {
  }

  lemma ReportTallies(sh: Shape, ops: seq<R.Op>, op: R.Op, site: string, p: string)
    requires sh.width > 0 && (op.Started? || op.Ended?)
    ensures TallyOf(sh, site, p)(ops + [op]) == AfterReport(TallyOf(sh, site, p)(ops), op, site, p)
  {
    var total, books := TotalOf(sh, site), BooksOf(sh);
    assert BooksReport(books, ops, op) by {
      forall n, q
        ensures books(ops + [op], n, q)
                == books(ops, n, q)
                   + if n.Exits? && op.Ended? && Matches(q, Series(op.domain, [], op.exitPath)) then 1 else 0
      {
        ReportBooks(sh, ops, op, n, q);
      }
    }
    RunOneMore(sh, ops, op);
    ReportTalliesBy(total, books, ops, op, site, p);
  }

  lemma ReportKeepsSites(sh: Shape, ops: seq<R.Op>, op: R.Op)
    requires sh.width > 0 && (op.Started? || op.Ended?)
    ensures SitesOf(sh)(ops + [op]) == SitesOf(sh)(ops)
  {
    RunOneMore(sh, ops, op);
  }

  ghost function ExitedAt(path: string): Tracker.Ended -> nat {
    (e: Tracker.Ended) => if e.exit == path then 1 else 0
  }

  /** What all reports of a call add. */
  ghost function AfterReports(t: Tally, starts: nat, ends: multiset<Tracker.Ended>, p: string): Tally {
    t.(sessions := t.sessions + starts, exits := t.exits + |ends|, exitsOn := t.exitsOn + Sum(ends, ExitedAt(p)))
  }

  /** `f` adds up reports one by one. */
  ghost predicate AddsUp(f: seq<R.Op> -> Tally, site: string, p: string) {
    forall ops: seq<R.Op>, op: R.Op :: op.Started? || op.Ended? ==> f(ops + [op]) == AfterReport(f(ops), op, site, p)
  }

  lemma {:induction false} StartsAddUp(
    f: seq<R.Op> -> Tally, ops: seq<R.Op>, fed: string, n: nat, site: string, p: string)
    requires AddsUp(f, site, p)
    ensures f(ops + StartsFed(fed, n)) == if fed == site then AfterReports(f(ops), n, multiset{}, p) else f(ops)
  {
    if n == 0 {
      assert ops + StartsFed(fed, 0) == ops;
    } else {
      StartsAddUp(f, ops, fed, n - 1, site, p);
      assert ops + StartsFed(fed, n) == ops + StartsFed(fed, n - 1) + [R.Started(fed)];
    }
  }

  lemma {:induction false} EndsAddUp(
    f: seq<R.Op> -> Tally, ops: seq<R.Op>, fed: string, ends: seq<Tracker.Ended>, site: string, p: string)
    requires AddsUp(f, site, p)
    ensures f(ops + EndsFed(fed, ends)) == if fed == site then AfterReports(f(ops), 0, multiset(ends), p) else f(ops)
  {
    if ends == [] {
      assert ops + EndsFed(fed, []) == ops;
    } else {
      var before, e := ends[..|ends| - 1], ends[|ends| - 1];
      EndsAddUp(f, ops, fed, before, site, p);
      EndsFedInParts(ops, fed, ends);
      OneEndMore(f(ops), ends, site, p);
    }
  }

  lemma EndsFedInParts(ops: seq<R.Op>, fed: string, ends: seq<Tracker.Ended>)
    requires ends != []
    ensures ops + EndsFed(fed, ends)
            == ops + EndsFed(fed, ends[..|ends| - 1]) + [R.Ended(fed, ends[|ends| - 1].exit)]
  {
  }

  lemma OneEndMore(t: Tally, ends: seq<Tracker.Ended>, site: string, p: string)
    requires ends != []
    ensures var before, e := ends[..|ends| - 1], ends[|ends| - 1];
            AfterReport(AfterReports(t, 0, multiset(before), p), R.Ended(site, e.exit), site, p)
            == AfterReports(t, 0, multiset(ends), p)
  {
    var before, e := ends[..|ends| - 1], ends[|ends| - 1];
    assert ends == before + [e];
    assert multiset(ends) == multiset(before) + multiset{e};
    SumPutsIn(multiset(before), e, ExitedAt(p));
  }

  /** Reports are counted one by one: every start as a session of its site, and
      every end as an exit of its site at its exit path. */
  lemma ReportsAreCounted(sh: Shape, ops: seq<R.Op>, fed: string, rep: Reports, site: string, p: string)
    requires sh.width > 0
    ensures TallyOf(sh, site, p)(ops + Fed(fed, rep))
            == if fed == site then AfterReports(TallyOf(sh, site, p)(ops), |rep.starts|, multiset(rep.ends), p)
               else TallyOf(sh, site, p)(ops)
  {
    var f := TallyOf(sh, site, p);
    assert AddsUp(f, site, p) by {
      forall ops: seq<R.Op>, op: R.Op | op.Started? || op.Ended?
        ensures f(ops + [op]) == AfterReport(f(ops), op, site, p)
      {
        ReportTallies(sh, ops, op, site, p);
      }
    }
    FedAddsUp(f, ops, fed, rep, site, p);
  }

  lemma FedAddsUp(f: seq<R.Op> -> Tally, ops: seq<R.Op>, fed: string, rep: Reports, site: string, p: string)
    requires AddsUp(f, site, p)
    ensures f(ops + Fed(fed, rep))
            == if fed == site then AfterReports(f(ops), |rep.starts|, multiset(rep.ends), p) else f(ops)
  {
    StartsAddUp(f, ops, fed, |rep.starts|, site, p);
    EndsAddUp(f, ops + StartsFed(fed, |rep.starts|), fed, rep.ends, site, p);
    FedInParts(ops, fed, rep);
    StartsThenEnds(f(ops), |rep.starts|, multiset(rep.ends), p);
  }

  lemma FedInParts(ops: seq<R.Op>, fed: string, rep: Reports)
    ensures ops + Fed(fed, rep) == ops + StartsFed(fed, |rep.starts|) + EndsFed(fed, rep.ends)
  {
  }

  lemma StartsThenEnds(t: Tally, starts: nat, ends: multiset<Tracker.Ended>, p: string)
    ensures AfterReports(AfterReports(t, starts, multiset{}, p), 0, ends, p) == AfterReports(t, starts, ends, p)
  {
  }

  /** Reports leave the sites as they are. */
  ghost predicate LeavesAlone(f: seq<R.Op> -> map<string, Site>) {
    forall ops: seq<R.Op>, op: R.Op :: op.Started? || op.Ended? ==> f(ops + [op]) == f(ops)
  }

  lemma {:induction false} ReportsLeaveAlone(
    f: seq<R.Op> -> map<string, Site>, ops: seq<R.Op>, more: seq<R.Op>)
    requires LeavesAlone(f) && forall op :: op in more ==> op.Started? || op.Ended?
    ensures f(ops + more) == f(ops)
  {
    if more == [] {
      assert ops + more == ops;
    } else {
      var before, op := more[..|more| - 1], more[|more| - 1];
      ReportsLeaveAlone(f, ops, before);
      assert ops + more == ops + before + [op];
    }
  }

  lemma {:induction false} StartsAreReports(site: string, n: nat)
    ensures forall op :: op in StartsFed(site, n) ==> op.Started?
  {
    if n > 0 {
      StartsAreReports(site, n - 1);
    }
  }

  lemma {:induction false} EndsAreReports(site: string, ends: seq<Tracker.Ended>)
    ensures forall op :: op in EndsFed(site, ends) ==> op.Ended?
  {
    if ends != [] {
      EndsAreReports(site, ends[..|ends| - 1]);
    }
  }

  lemma ReportsKeepSites(sh: Shape, ops: seq<R.Op>, fed: string, rep: Reports)
    requires sh.width > 0
    ensures SitesOf(sh)(ops + Fed(fed, rep)) == SitesOf(sh)(ops)
  {
    var f := SitesOf(sh);
    assert LeavesAlone(f) by {
      forall ops: seq<R.Op>, op: R.Op | op.Started? || op.Ended?
        ensures f(ops + [op]) == f(ops)
      {
        ReportKeepsSites(sh, ops, op);
      }
    }
    StartsAreReports(fed, |rep.starts|);
    EndsAreReports(fed, rep.ends);
    ReportsLeaveAlone(f, ops, Fed(fed, rep));
  }

  // ---------------------------------------------------------------------
  // The other calls
  // ---------------------------------------------------------------------

  /** What a page view adds that is labelled `path`. */
  function AfterView(t: Tally, isNew: bool, path: string, p: string): Tally {
    var one := if isNew then 1 else 0;
    t.(views := t.views + 1, entries := t.entries + one, entriesOn := t.entriesOn + if path == p then one else 0)
  }

  ghost predicate Views(sh: Shape, r: Registered, op: R.Op, site: string) {
    op.Record? && op.o.site == site && site in r.sites && op.o.kind.Pageview?
  }

  lemma CallBooks(sh: Shape, ops: seq<R.Op>, op: R.Op, n: Name, site: string, p: Option<string>)
    requires sh.width > 0 && !op.Started? && !op.Ended? && (n.Pageviews? || n.Entries? || n.Exits?)
    ensures var r := R.Run(sh, ops);
            R.Booked(sh, ops + [op], n, Query(site, None, p))
            == R.Booked(sh, ops, n, Query(site, None, p))
               + if Views(sh, r, op, site) && !n.Exits? && (n.Entries? ==> op.isNew)
                    && (p.Some? ==> PathShown(sh, r, op.o) == p.value) then 1 else 0
  {
    BookedOneMore(sh, ops, op, n, Query(site, None, p));
  }

  lemma CallKeepsSessions(sh: Shape, ops: seq<R.Op>, op: R.Op, site: string)
    requires sh.width > 0 && !op.Started? && !op.Ended?
    ensures SessionsTotal(R.Run(sh, ops + [op]), site) == SessionsTotal(R.Run(sh, ops), site)
  {
    RunOneMore(sh, ops, op);
  }

  ghost predicate BooksCall(books: Books, ops: seq<R.Op>, op: R.Op, site: string, views: bool, path: string)
    requires views ==> op.Record?
  {
    forall n: Name, q: Query :: (n.Pageviews? || n.Entries? || n.Exits?) && q.site == site && q.first == None ==>
      books(ops + [op], n, q)
      == books(ops, n, q)
         + if views && !n.Exits? && (n.Entries? ==> op.isNew) && (q.path.Some? ==> path == q.path.value) then 1 else 0
  }

  lemma CallTalliesBy(
    total: seq<R.Op> -> nat, books: Books, ops: seq<R.Op>, op: R.Op, site: string, views: bool, path: string,
    p: string)
    requires views ==> op.Record?
    requires total(ops + [op]) == total(ops) && BooksCall(books, ops, op, site, views, path)
    ensures var t := TallyBy(total, books, site, p)(ops);
            TallyBy(total, books, site, p)(ops + [op]) == if views then AfterView(t, op.isNew, path, p) else t
  {
  }

  lemma CallTallies(sh: Shape, ops: seq<R.Op>, op: R.Op, site: string, p: string)
    requires sh.width > 0 && !op.Started? && !op.Ended?
    ensures var t, r := TallyOf(sh, site, p)(ops), R.Run(sh, ops);
            TallyOf(sh, site, p)(ops + [op])
            == if Views(sh, r, op, site) then AfterView(t, op.isNew, PathShown(sh, r, op.o), p) else t
  {
    var total, books := TotalOf(sh, site), BooksOf(sh);
    var r := R.Run(sh, ops);
    var views := Views(sh, r, op, site);
    var path := if op.Record? then PathShown(sh, r, op.o) else "";
    assert BooksCall(books, ops, op, site, views, path) by {
      forall n: Name, q: Query | (n.Pageviews? || n.Entries? || n.Exits?) && q.site == site && q.first == None
        ensures books(ops + [op], n, q)
                == books(ops, n, q)
                   + if views && !n.Exits? && (n.Entries? ==> op.isNew) && (q.path.Some? ==> path == q.path.value)
                     then 1 else 0
      {
        CallBooks(sh, ops, op, n, site, q.path);
      }
    }
    CallKeepsSessions(sh, ops, op, site);
    CallTalliesBy(total, books, ops, op, site, views, path, p);
  }

  lemma CallKeepsSites(sh: Shape, ops: seq<R.Op>, op: R.Op)
    requires sh.width > 0
    ensures SitesOf(sh)(ops + [op]).Keys
            == SitesOf(sh)(ops).Keys + if op.Configure? then {op.c.domain} else {}
  {
    RunOneMore(sh, ops, op);
    R.StepConfigures(sh, R.Run(sh, ops), op);
  }

  // ---------------------------------------------------------------------
  // Counters and trackers
  // ---------------------------------------------------------------------

  /** What the registry has counted for a site is what its tracker reported:
      sessions and entries are its starts, at `p` those entered at `p`; exits are
      its ends, at `p` those left at `p`. */
  ghost predicate Counts(t: Tally, s: Tracker.State, p: string) {
    && t.sessions == t.entries == |s.started|
    && t.entriesOn == s.started[p]
    && t.exits == |s.ended|
    && t.exitsOn == Sum(s.ended, ExitedAt(p))
  }

  /** And its sessions have as many pages as there were page views. */
  ghost predicate Heard(t: Tally, s: Tracker.State, p: string) {
    && Counts(t, s, p)
    && TrackerRuns.Accounts(TrackerRuns.Total(s), s.started, t.views)
  }

  lemma NothingStarted(s: Tracker.State, rep: Reports, s': Tracker.State)
    requires Reported(s, rep, s') && s'.started == s.started
    ensures rep.starts == []
  {
    assert |s'.started| == |s.started| + |multiset(rep.starts)|;
  }

  lemma OneStarted(s: Tracker.State, rep: Reports, s': Tracker.State, path: string)
    requires Reported(s, rep, s') && s'.started == s.started + multiset{path}
    ensures |rep.starts| == 1
  {
    assert |s'.started| == |s.started| + |multiset(rep.starts)|;
  }

  lemma EndsAreHeard(s: Tracker.State, rep: Reports, s': Tracker.State, p: string)
    requires Reported(s, rep, s')
    ensures Sum(s'.ended, ExitedAt(p)) == Sum(s.ended, ExitedAt(p)) + Sum(multiset(rep.ends), ExitedAt(p))
    ensures |s'.ended| == |s.ended| + |multiset(rep.ends)|
  {
    SumAdds(s.ended, multiset(rep.ends), ExitedAt(p));
  }

  lemma OpeningCounts(t: Tally, s: Tracker.State, rep: Reports, s': Tracker.State, path: string, p: string)
    requires Counts(t, s, p) && Reported(s, rep, s') && s'.started == s.started + multiset{path}
    ensures Counts(AfterView(AfterReports(t, |rep.starts|, multiset(rep.ends), p), true, path, p), s', p)
  {
    EndsAreHeard(s, rep, s', p);
    OneStarted(s, rep, s', path);
  }

  lemma EndingCounts(t: Tally, s: Tracker.State, rep: Reports, s': Tracker.State, path: string, p: string)
    requires Counts(t, s, p) && Reported(s, rep, s') && s'.started == s.started
    ensures Counts(AfterReports(t, |rep.starts|, multiset(rep.ends), p), s', p)
    ensures Counts(AfterView(AfterReports(t, |rep.starts|, multiset(rep.ends), p), false, path, p), s', p)
  {
    EndsAreHeard(s, rep, s', p);
    NothingStarted(s, rep, s');
  }

  lemma StartedBy(c: Tracker.Config, s: Tracker.State, op: Tracker.Op, s': Tracker.State)
    requires Tracker.Step(c, s, op, s')
    ensures s'.started
            == if op.Touch? && !Tracker.Continues(c.ttl, s.live, op.id, op.now) then s.started + multiset{op.path}
               else s.started
  {
  }

  lemma TouchCounts(
    c: Tracker.Config, t: Tally, s: Tracker.State, op: Tracker.Op, rep: Reports, s': Tracker.State, p: string)
    requires Counts(t, s, p) && op.Touch?
    requires Tracker.Step(c, s, op, s') && Reported(s, rep, s')
    ensures Counts(
              AfterView(
                AfterReports(t, |rep.starts|, multiset(rep.ends), p),
                !Tracker.Continues(c.ttl, s.live, op.id, op.now), op.path, p), s', p)
  {
    StartedBy(c, s, op, s');
    if Tracker.Continues(c.ttl, s.live, op.id, op.now) {
      EndingCounts(t, s, rep, s', op.path, p);
    } else {
      OpeningCounts(t, s, rep, s', op.path, p);
    }
  }

  /** A page view: the tracker's answer makes it an entry exactly when the tracker
      reports a start. */
  lemma TouchIsHeard(
    c: Tracker.Config, t: Tally, s: Tracker.State, op: Tracker.Op, rep: Reports, s': Tracker.State, p: string)
    requires Heard(t, s, p) && op.Touch?
    requires Tracker.Step(c, s, op, s') && Reported(s, rep, s')
    ensures Heard(
              AfterView(
                AfterReports(t, |rep.starts|, multiset(rep.ends), p),
                !Tracker.Continues(c.ttl, s.live, op.id, op.now), op.path, p), s', p)
  {
    TrackerRuns.StepAccounts(c, s, op, s', t.views);
    TouchCounts(c, t, s, op, rep, s', p);
  }

  lemma OthersAreHeard(
    c: Tracker.Config, t: Tally, s: Tracker.State, op: Tracker.Op, rep: Reports, s': Tracker.State, p: string)
    requires Heard(t, s, p) && !op.Touch?
    requires Tracker.Step(c, s, op, s') && Reported(s, rep, s')
    ensures Heard(AfterReports(t, |rep.starts|, multiset(rep.ends), p), s', p)
  {
    TrackerRuns.StepAccounts(c, s, op, s', t.views);
    StartedBy(c, s, op, s');
    EndingCounts(t, s, rep, s', p, p);
  }

  lemma SilenceIsHeard(t: Tally, s: Tracker.State, rep: Reports, p: string)
    requires Heard(t, s, p) && Reported(s, rep, s)
    ensures Heard(AfterReports(t, |rep.starts|, multiset(rep.ends), p), s, p)
  {
    EndingCounts(t, s, rep, s, p, p);
  }

  const NO_SESSIONS := Tracker.State(map[], 0, multiset{}, multiset{})

  function StateAt(w: World, site: string): Tracker.State {
    if site in w.trackers then w.trackers[site].state else NO_SESSIONS
  }

  ghost predicate HasHeard(sh: Shape, w: World, site: string, p: string)
    requires sh.width > 0
  {
    Heard(TallyOf(sh, site, p)(w.ops), StateAt(w, site), p)
  }

  ghost predicate SameSites(sh: Shape, w: World)
    requires sh.width > 0
  {
    w.trackers.Keys == SitesOf(sh)(w.ops).Keys
  }

  lemma SitesNow(sh: Shape, ops: seq<R.Op>)
    requires sh.width > 0
    ensures SitesOf(sh)(ops) == R.Run(sh, ops).sites
  {
  }

  lemma SameLabel(sh: Shape, ops: seq<R.Op>, ops': seq<R.Op>, o: Observation)
    requires sh.width > 0 && SitesOf(sh)(ops') == SitesOf(sh)(ops)
    ensures PathShown(sh, R.Run(sh, ops'), o) == PathShown(sh, R.Run(sh, ops), o)
  {
  }

  /** What a call whose reports went first adds. */
  lemma ReportsThenCall(sh: Shape, ops: seq<R.Op>, fed: string, rep: Reports, op: R.Op, site: string, p: string)
    requires sh.width > 0 && !op.Started? && !op.Ended?
    ensures var t := TallyOf(sh, site, p)(ops);
            var t' := if fed == site then AfterReports(t, |rep.starts|, multiset(rep.ends), p) else t;
            TallyOf(sh, site, p)(ops + Fed(fed, rep) + [op])
            == if op.Record? && op.o.site == site && site in SitesOf(sh)(ops) && op.o.kind.Pageview? then
                 AfterView(t', op.isNew, PathShown(sh, R.Run(sh, ops), op.o), p)
               else t'
  {
    var mid := ops + Fed(fed, rep);
    ReportsAreCounted(sh, ops, fed, rep, site, p);
    ReportsKeepSites(sh, ops, fed, rep);
    CallTallies(sh, mid, op, site, p);
    SitesNow(sh, mid);
    if op.Record? {
      SameLabel(sh, ops, mid, op.o);
    }
  }

  lemma SitesThenCall(sh: Shape, ops: seq<R.Op>, fed: string, rep: Reports, op: R.Op)
    requires sh.width > 0
    ensures SitesOf(sh)(ops + Fed(fed, rep) + [op]).Keys
            == SitesOf(sh)(ops).Keys + if op.Configure? then {op.c.domain} else {}
  {
    ReportsKeepSites(sh, ops, fed, rep);
    CallKeepsSites(sh, ops + Fed(fed, rep), op);
  }

  lemma ListenIsHeard(
    t: Tracked, tally: Tally, o: Observation, visitor: Tracker.Id, path: string, rep: Reports, t': Tracked, p: string)
    requires Heard(tally, t.state, p)
    requires Listens(t, o, visitor, path, t') && Reported(t.state, rep, t'.state)
    ensures var reported := AfterReports(tally, |rep.starts|, multiset(rep.ends), p);
            Heard(if o.kind.Pageview? then AfterView(reported, IsNew(t, o, visitor), path, p) else reported, t'.state, p)
  {
    match o.kind
    case Pageview => TouchIsHeard(t.cfg, tally, t.state, Tracker.Touch(visitor, path, o.at), rep, t'.state, p);
    case Engagement => OthersAreHeard(t.cfg, tally, t.state, Tracker.Extend(visitor, o.at), rep, t'.state, p);
    case Custom => SilenceIsHeard(tally, t.state, rep, p);
  }

  /** What a tracker does is heard for its own site, and leaves the others. */
  lemma ListenerIsHeard(
    w: World, o: Observation, visitor: Tracker.Id, path: string, rep: Reports, w': World, site: string, p: string,
    tally: Tally)
    requires o.site in w.trackers && o.site in w'.trackers
    requires w'.trackers == w.trackers[o.site := w'.trackers[o.site]]
    requires Listens(w.trackers[o.site], o, visitor, path, w'.trackers[o.site])
    requires Reported(w.trackers[o.site].state, rep, w'.trackers[o.site].state)
    requires Heard(tally, StateAt(w, site), p)
    ensures var reported := if o.site == site then AfterReports(tally, |rep.starts|, multiset(rep.ends), p) else tally;
            var isNew := IsNew(w.trackers[o.site], o, visitor);
            Heard(
              if o.site == site && o.kind.Pageview? then AfterView(reported, isNew, path, p) else reported,
              StateAt(w', site), p)
  {
    if site == o.site {
      ListenIsHeard(w.trackers[site], tally, o, visitor, path, rep, w'.trackers[site], p);
    }
  }

  lemma RecordIsHeard(
    sh: Shape, w: World, o: Observation, visitor: Tracker.Id, rep: Reports, w': World, site: string, p: string)
    requires sh.width > 0 && SameSites(sh, w) && o.site in w.trackers
    requires Step(sh, w, Record(o, visitor), rep, w') && HasHeard(sh, w, site, p)
    ensures HasHeard(sh, w', site, p)
  {
    var path := PathShown(sh, R.Run(sh, w.ops), o);
    ListenerIsHeard(w, o, visitor, path, rep, w', site, p, TallyOf(sh, site, p)(w.ops));
    ReportsThenCall(sh, w.ops, o.site, rep, R.Record(o, IsNew(w.trackers[o.site], o, visitor)), site, p);
  }

  lemma SweeperIsHeard(
    w: World, domain: string, now: int, rep: Reports, w': World, site: string, p: string, tally: Tally)
    requires domain in w.trackers && domain in w'.trackers
    requires w'.trackers == w.trackers[domain := w'.trackers[domain]]
    requires Tracker.Step(
               w.trackers[domain].cfg, w.trackers[domain].state, Tracker.Sweep(now), w'.trackers[domain].state)
    requires Reported(w.trackers[domain].state, rep, w'.trackers[domain].state)
    requires Heard(tally, StateAt(w, site), p)
    ensures Heard(
              if domain == site then AfterReports(tally, |rep.starts|, multiset(rep.ends), p) else tally,
              StateAt(w', site), p)
  {
    if site == domain {
      var t := w.trackers[site];
      OthersAreHeard(t.cfg, tally, t.state, Tracker.Sweep(now), rep, w'.trackers[site].state, p);
    }
  }

  lemma MaintainIsHeard(
    sh: Shape, w: World, domain: string, now: int, rep: Reports, w': World, site: string, p: string)
    requires sh.width > 0 && domain in w.trackers
    requires Step(sh, w, Maintain(domain, now), rep, w') && HasHeard(sh, w, site, p)
    ensures HasHeard(sh, w', site, p)
  {
    SweeperIsHeard(w, domain, now, rep, w', site, p, TallyOf(sh, site, p)(w.ops));
    ReportsThenCall(sh, w.ops, domain, rep, R.Maintain(domain, now), site, p);
  }

  /** A call that no tracker hears of. */
  lemma QuietIsHeard(sh: Shape, w: World, op: R.Op, w': World, site: string, p: string)
    requires sh.width > 0 && SameSites(sh, w) && HasHeard(sh, w, site, p)
    requires !op.Started? && !op.Ended? && (op.Record? ==> op.o.site !in w.trackers)
    requires w'.ops == w.ops + [op] && StateAt(w', site) == StateAt(w, site)
    ensures HasHeard(sh, w', site, p)
  {
    SitesNow(sh, w.ops);
    CallTallies(sh, w.ops, op, site, p);
  }

  lemma RecordStepIsHeard(
    sh: Shape, w: World, o: Observation, visitor: Tracker.Id, rep: Reports, w': World, site: string, p: string)
    requires sh.width > 0 && SameSites(sh, w)
    requires Step(sh, w, Record(o, visitor), rep, w') && HasHeard(sh, w, site, p)
    ensures HasHeard(sh, w', site, p)
  {
    if o.site in w.trackers {
      RecordIsHeard(sh, w, o, visitor, rep, w', site, p);
    } else {
      QuietIsHeard(sh, w, R.Record(o, false), w', site, p);
    }
  }

  lemma MaintainStepIsHeard(
    sh: Shape, w: World, domain: string, now: int, rep: Reports, w': World, site: string, p: string)
    requires sh.width > 0 && SameSites(sh, w)
    requires Step(sh, w, Maintain(domain, now), rep, w') && HasHeard(sh, w, site, p)
    ensures HasHeard(sh, w', site, p)
  {
    if domain in w.trackers {
      MaintainIsHeard(sh, w, domain, now, rep, w', site, p);
    } else {
      QuietIsHeard(sh, w, R.Maintain(domain, now), w', site, p);
    }
  }

  lemma StepIsHeard(sh: Shape, w: World, call: Call, rep: Reports, w': World, site: string, p: string)
    requires sh.width > 0 && SameSites(sh, w)
    requires Step(sh, w, call, rep, w') && HasHeard(sh, w, site, p)
    ensures HasHeard(sh, w', site, p)
  {
    match call
    case Configure(c) => QuietIsHeard(sh, w, R.Configure(c), w', site, p);
    case Record(o, visitor) => RecordStepIsHeard(sh, w, o, visitor, rep, w', site, p);
    case Maintain(domain, now) => MaintainStepIsHeard(sh, w, domain, now, rep, w', site, p);
  }

  lemma RecordKeepsSameSites(sh: Shape, w: World, o: Observation, visitor: Tracker.Id, rep: Reports, w': World)
    requires sh.width > 0 && SameSites(sh, w) && Step(sh, w, Record(o, visitor), rep, w')
    ensures SameSites(sh, w')
  {
    if o.site in w.trackers {
      SitesThenCall(sh, w.ops, o.site, rep, R.Record(o, IsNew(w.trackers[o.site], o, visitor)));
    } else {
      CallKeepsSites(sh, w.ops, R.Record(o, false));
    }
  }

  lemma MaintainKeepsSameSites(sh: Shape, w: World, domain: string, now: int, rep: Reports, w': World)
    requires sh.width > 0 && SameSites(sh, w) && Step(sh, w, Maintain(domain, now), rep, w')
    ensures SameSites(sh, w')
  {
    if domain in w.trackers {
      SitesThenCall(sh, w.ops, domain, rep, R.Maintain(domain, now));
    } else {
      CallKeepsSites(sh, w.ops, R.Maintain(domain, now));
    }
  }

  /** A site is known if and only if it has a tracker. */
  lemma StepKeepsSameSites(sh: Shape, w: World, call: Call, rep: Reports, w': World)
    requires sh.width > 0 && SameSites(sh, w) && Step(sh, w, call, rep, w')
    ensures SameSites(sh, w')
  {
    match call
    case Configure(c) => CallKeepsSites(sh, w.ops, R.Configure(c));
    case Record(o, visitor) => RecordKeepsSameSites(sh, w, o, visitor, rep, w');
    case Maintain(domain, now) => MaintainKeepsSameSites(sh, w, domain, now, rep, w');
  }

  lemma NothingHeardYet(sh: Shape, site: string, p: string)
    requires sh.width > 0
    ensures SameSites(sh, World([], map[])) && HasHeard(sh, World([], map[]), site, p)
  {
    assert TrackerRuns.Total(NO_SESSIONS) == multiset{};
  }

  /** On every run of the registry with its trackers, every report has been heard
      once and every opening has been an entry once, for every site and path. */
  lemma {:induction false} EverythingIsHeard(
    sh: Shape, ws: seq<World>, calls: seq<Call>, reps: seq<Reports>, site: string, p: string)
    requires sh.width > 0 && IsRun(sh, ws, calls, reps)
    ensures SameSites(sh, ws[|calls|]) && HasHeard(sh, ws[|calls|], site, p)
    decreases |calls|
  {
    if calls == [] {
      NothingHeardYet(sh, site, p);
    } else {
      var k := |calls| - 1;
      EverythingIsHeard(sh, ws[..|calls|], calls[..k], reps[..k], site, p);
      StepIsHeard(sh, ws[k], calls[k], reps[k], ws[|calls|], site, p);
      StepKeepsSameSites(sh, ws[k], calls[k], reps[k], ws[|calls|]);
    }
  }

  // ---------------------------------------------------------------------
  // What follows
  // ---------------------------------------------------------------------

  lemma HeardNumbers(t: Tally, s: Tracker.State, p: string)
    requires Heard(t, s, p)
    ensures t.sessions == |s.ended| + |s.live|
    ensures t.entriesOn
            == Sum(s.ended, TrackerRuns.EnteredAt(p)) + Sum(Tracker.Finished(s.live), TrackerRuns.EnteredAt(p))
    ensures t.views
            == Sum(s.ended, TrackerRuns.PagesOf) + Sum(Tracker.Finished(s.live), TrackerRuns.PagesOf)
  {
    TrackerRuns.FinishedSize(s.live);
    SumAdds(s.ended, Tracker.Finished(s.live), TrackerRuns.EnteredAt(p));
    SumAdds(s.ended, Tracker.Finished(s.live), TrackerRuns.PagesOf);
  }

  /** Counts there are, and counts that maintenance deleted. */
  ghost function Ever(sh: Shape, ops: seq<R.Op>, n: Name, q: Query): nat
    requires sh.width > 0
  {
    R.Live(sh, ops, n, q) + R.Deleted(sh, ops, n, q)
  }

  lemma EverIsBooked(sh: Shape, ops: seq<R.Op>, site: string, p: string)
    requires sh.width > 0
    ensures TallyOf(sh, site, p)(ops)
            == Tally(
                 SessionsTotal(R.Run(sh, ops), site), Ever(sh, ops, Pageviews, All(site)),
                 Ever(sh, ops, Entries, All(site)), Ever(sh, ops, Entries, On(site, p)),
                 Ever(sh, ops, Exits, All(site)), Ever(sh, ops, Exits, On(site, p)))
  {
    forall n, q
      ensures Ever(sh, ops, n, q) == R.Booked(sh, ops, n, q)
    {
      R.LedgerBalances(sh, ops, n, q);
    }
  }

  /** Series deletion aside, on every run of the registry with its trackers: the
      entries of a site are its sessions, path by path those that began there,
      ended or live. */
  lemma EntriesAreSessions(
    sh: Shape, ws: seq<World>, calls: seq<Call>, reps: seq<Reports>, site: string, p: string)
    requires sh.width > 0 && IsRun(sh, ws, calls, reps)
    ensures var w := ws[|calls|];
            var s := StateAt(w, site);
            && Ever(sh, w.ops, Entries, All(site)) == SessionsTotal(R.Run(sh, w.ops), site)
            && Ever(sh, w.ops, Entries, On(site, p))
               == Sum(s.ended, TrackerRuns.EnteredAt(p)) + Sum(Tracker.Finished(s.live), TrackerRuns.EnteredAt(p))
  {
    var w := ws[|calls|];
    EverythingIsHeard(sh, ws, calls, reps, site, p);
    HeardNumbers(TallyOf(sh, site, p)(w.ops), StateAt(w, site), p);
    EverIsBooked(sh, w.ops, site, p);
  }

  /** Its exits are its sessions less the live ones, path by path those that ended
      there. */
  lemma ExitsAreEndedSessions(
    sh: Shape, ws: seq<World>, calls: seq<Call>, reps: seq<Reports>, site: string, p: string)
    requires sh.width > 0 && IsRun(sh, ws, calls, reps)
    ensures var w := ws[|calls|];
            var s := StateAt(w, site);
            && Ever(sh, w.ops, Exits, All(site)) == SessionsTotal(R.Run(sh, w.ops), site) - |s.live|
            && Ever(sh, w.ops, Exits, On(site, p)) == Sum(s.ended, ExitedAt(p))
  {
    var w := ws[|calls|];
    EverythingIsHeard(sh, ws, calls, reps, site, p);
    HeardNumbers(TallyOf(sh, site, p)(w.ops), StateAt(w, site), p);
    EverIsBooked(sh, w.ops, site, p);
  }

  /** And its page views are the pages of its sessions. */
  lemma PageviewsAreSessionPages(
    sh: Shape, ws: seq<World>, calls: seq<Call>, reps: seq<Reports>, site: string)
    requires sh.width > 0 && IsRun(sh, ws, calls, reps)
    ensures var w := ws[|calls|];
            var s := StateAt(w, site);
            Ever(sh, w.ops, Pageviews, All(site))
            == Sum(s.ended, TrackerRuns.PagesOf) + Sum(Tracker.Finished(s.live), TrackerRuns.PagesOf)
  {
    var w := ws[|calls|];
    EverythingIsHeard(sh, ws, calls, reps, site, "");
    HeardNumbers(TallyOf(sh, site, "")(w.ops), StateAt(w, site), "");
    EverIsBooked(sh, w.ops, site, "");
  }

  ghost predicate AllWithinCap(w: World) {
    forall d :: d in w.trackers ==>
      w.trackers[d].cfg.cap == SESSION_CAP && TrackerRuns.WithinCap(w.trackers[d].cfg, w.trackers[d].state)
  }

  lemma ListeningStaysWithinCap(t: Tracked, o: Observation, visitor: Tracker.Id, path: string, t': Tracked)
    requires Listens(t, o, visitor, path, t') && TrackerRuns.WithinCap(t.cfg, t.state)
    ensures TrackerRuns.WithinCap(t'.cfg, t'.state)
  {
    match o.kind
    case Pageview =>
      TrackerRuns.StepStaysWithinCap(t.cfg, t.state, Tracker.Touch(visitor, path, o.at), t'.state);
    case Engagement => TrackerRuns.StepStaysWithinCap(t.cfg, t.state, Tracker.Extend(visitor, o.at), t'.state);
    case Custom =>
  }

  lemma StepStaysWithinCap(sh: Shape, w: World, call: Call, rep: Reports, w': World)
    requires sh.width > 0 && AllWithinCap(w) && Step(sh, w, call, rep, w')
    ensures AllWithinCap(w')
  {
    match call
    case Configure(_) =>
    case Record(o, visitor) =>
      if o.site in w.trackers {
        ListeningStaysWithinCap(
          w.trackers[o.site], o, visitor, PathShown(sh, R.Run(sh, w.ops), o), w'.trackers[o.site]);
      }
    case Maintain(domain, now) =>
      if domain in w.trackers {
        var t := w.trackers[domain];
        TrackerRuns.StepStaysWithinCap(t.cfg, t.state, Tracker.Sweep(now), w'.trackers[domain].state);
      }
  }

  /** No site ever has more live sessions than the cap. */
  lemma {:induction false} TrackersStayWithinCap(
    sh: Shape, ws: seq<World>, calls: seq<Call>, reps: seq<Reports>)
    requires sh.width > 0 && IsRun(sh, ws, calls, reps)
    ensures AllWithinCap(ws[|calls|])
    ensures forall d :: d in ws[|calls|].trackers ==> |ws[|calls|].trackers[d].state.live| <= 200_000
    decreases |calls|
  {
    if calls != [] {
      var k := |calls| - 1;
      TrackersStayWithinCap(sh, ws[..|calls|], calls[..k], reps[..k]);
      StepStaysWithinCap(sh, ws[k], calls[k], reps[k], ws[|calls|]);
    }
  }

  // ---------------------------------------------------------------------
  // What a tracker is called with
  // ---------------------------------------------------------------------

  /** What a call of the registry amounts to for the tracker of a site: a page view
      of the site touches, for its visitor, under the pure label and at its time;
      an engagement extends; maintenance sweeps. */
  ghost function TrackerCall(sh: Shape, w: World, call: Call, site: string): seq<Tracker.Op>
    requires sh.width > 0
  {
    if site !in w.trackers then []
    else
      match call
      case Configure(_) => []
      case Record(o, visitor) =>
        if o.site != site || o.kind.Custom? then []
        else if o.kind.Engagement? then [Tracker.Extend(visitor, o.at)]
        else [Tracker.Touch(visitor, PathShown(sh, R.Run(sh, w.ops), o), o.at)]
      case Maintain(domain, now) => if domain == site then [Tracker.Sweep(now)] else []
  }

  ghost function TrackerCalls(sh: Shape, ws: seq<World>, calls: seq<Call>, site: string): seq<Tracker.Op>
    requires sh.width > 0 && |ws| == |calls| + 1
    decreases |calls|
  {
    if calls == [] then []
    else
      var k := |calls| - 1;
      TrackerCalls(sh, ws[..|calls|], calls[..k], site) + TrackerCall(sh, ws[k], calls[k], site)
  }

  /** The configuration that a run first gave a site. */
  ghost function FirstConfig(calls: seq<Call>, site: string): Option<Config> {
    if calls == [] then None
    else
      var before, call := FirstConfig(calls[..|calls| - 1], site), calls[|calls| - 1];
      if before.Some? then before
      else if call.Configure? && call.c.domain == site then Some(call.c)
      else None
  }

  /** A step of the whole is a step of each tracker, or leaves it alone. */
  lemma StepOfTracker(sh: Shape, w: World, call: Call, rep: Reports, w': World, site: string)
    requires sh.width > 0 && Step(sh, w, call, rep, w') && site in w.trackers
    ensures site in w'.trackers && w'.trackers[site].cfg == w.trackers[site].cfg
    ensures var ops := TrackerCall(sh, w, call, site);
            && |ops| <= 1
            && (ops == [] ==> w'.trackers[site] == w.trackers[site])
            && (ops != [] ==>
                  Tracker.Step(w.trackers[site].cfg, w.trackers[site].state, ops[0], w'.trackers[site].state))
  {
  }

  lemma TrackerAppears(sh: Shape, w: World, call: Call, rep: Reports, w': World, site: string)
    requires sh.width > 0 && Step(sh, w, call, rep, w') && site !in w.trackers
    ensures site in w'.trackers <==> call.Configure? && call.c.domain == site
    ensures site in w'.trackers ==> w'.trackers[site] == NewTracked(call.c)
  {
  }

  lemma TrackerRunMore(
    c: Tracker.Config, ss: seq<Tracker.State>, ops: seq<Tracker.Op>, op: Tracker.Op, s': Tracker.State)
    requires TrackerRuns.IsRun(c, ss, ops) && Tracker.Step(c, ss[|ops|], op, s')
    ensures TrackerRuns.IsRun(c, ss + [s'], ops + [op])
  {
    assert (ss + [s'])[..|ops| + 1] == ss;
    assert (ops + [op])[..|ops|] == ops;
  }

  /** A site has a tracker from its first configuration on, with the time-out of
      that configuration and room for 200000 sessions. */
  lemma {:induction false} TrackersAreFirstConfigured(
    sh: Shape, ws: seq<World>, calls: seq<Call>, reps: seq<Reports>, site: string)
    requires sh.width > 0 && IsRun(sh, ws, calls, reps)
    ensures site in ws[|calls|].trackers <==> FirstConfig(calls, site).Some?
    ensures site in ws[|calls|].trackers ==>
              ws[|calls|].trackers[site].cfg
              == Tracker.Config(FirstConfig(calls, site).value.sessionTtl, 200_000)
    decreases |calls|
  {
    if calls != [] {
      var k := |calls| - 1;
      TrackersAreFirstConfigured(sh, ws[..|calls|], calls[..k], reps[..k], site);
      if site in ws[k].trackers {
        StepOfTracker(sh, ws[k], calls[k], reps[k], ws[|calls|], site);
      } else {
        TrackerAppears(sh, ws[k], calls[k], reps[k], ws[|calls|], site);
      }
    }
  }

  /** The tracker of a site has gone through the calls that are its own, and
      through nothing else: so all that holds of a tracker's runs, such as what it
      reports of each visitor's timeline, holds of it. */
  lemma {:induction false} TrackersAreRuns(
    sh: Shape, ws: seq<World>, calls: seq<Call>, reps: seq<Reports>, site: string)
    returns (ss: seq<Tracker.State>)
    requires sh.width > 0 && IsRun(sh, ws, calls, reps) && site in ws[|calls|].trackers
    ensures var ops, t := TrackerCalls(sh, ws, calls, site), ws[|calls|].trackers[site];
            TrackerRuns.IsRun(t.cfg, ss, ops) && ss[|ops|] == t.state
    decreases |calls|
  {
    var k := |calls| - 1;
    var before := TrackerCalls(sh, ws[..|calls|], calls[..k], site);
    var more := TrackerCall(sh, ws[k], calls[k], site);
    if site in ws[k].trackers {
      ss := TrackersAreRuns(sh, ws[..|calls|], calls[..k], reps[..k], site);
      StepOfTracker(sh, ws[k], calls[k], reps[k], ws[|calls|], site);
      if more == [] {
        assert before + more == before;
      } else {
        var t := ws[|calls|].trackers[site];
        TrackerRunMore(t.cfg, ss, before, more[0], t.state);
        assert before + more == before + [more[0]];
        ss := ss + [t.state];
      }
    } else {
      TrackerAppears(sh, ws[k], calls[k], reps[k], ws[|calls|], site);
      NoCallsYet(sh, ws[..|calls|], calls[..k], reps[..k], site);
      assert before + more == [];
      ss := [NO_SESSIONS];
    }
  }

  lemma {:induction false} NoCallsYet(
    sh: Shape, ws: seq<World>, calls: seq<Call>, reps: seq<Reports>, site: string)
    requires sh.width > 0 && IsRun(sh, ws, calls, reps) && site !in ws[|calls|].trackers
    ensures TrackerCalls(sh, ws, calls, site) == []
    decreases |calls|
  {
    if calls != [] {
      var k := |calls| - 1;
      if site in ws[k].trackers {
        StepOfTracker(sh, ws[k], calls[k], reps[k], ws[|calls|], site);
      }
      NoCallsYet(sh, ws[..|calls|], calls[..k], reps[..k], site);
    }
  }
}
