/** Recording and maintenance with the objects at work: a page view touches the
    tracker of its site under the label that the path was admitted with, the
    tracker's answer makes it an entry, and what the tracker reports is counted
    by the registry. Each call is a step of `SessionMetrics`. */
module Recording {
  import opened Sketch
  import opened Guard
  import opened Families
  import opened Registry
  import opened SessionMetrics
  import R = RegistryRuns
  import Bags
  import Tracker = Sessions

  // ---------------------------------------------------------------------
  // Reports
  // ---------------------------------------------------------------------

  function OneStarted(totals: map<string, nat>, site: string): map<string, nat> {
    totals[site := (if site in totals then totals[site] else 0) + 1]
  }

  function Started(totals: map<string, nat>, site: string, n: nat): map<string, nat> {
    if n == 0 then totals else OneStarted(Started(totals, site, n - 1), site)
  }

  function Ended(exits: Family, site: string, ends: seq<Tracker.Ended>): Family {
    if ends == [] then exits
    else Inc(Ended(exits, site, ends[..|ends| - 1]), Series(site, [], ends[|ends| - 1].exit))
  }

  /** The registry after a tracker's reports. */
  function Told(r: Registered, site: string, rep: Reports): Registered {
    r.(sessionsTotal := Started(r.sessionsTotal, site, |rep.starts|),
       vecs := r.vecs.(exits := Ended(r.vecs.exits, site, rep.ends)))
  }

  lemma OneEndMore(exits: Family, site: string, ends: seq<Tracker.Ended>, e: Tracker.Ended)
    ensures Ended(exits, site, ends + [e]) == Inc(Ended(exits, site, ends), Series(site, [], e.exit))
  {
    assert (ends + [e])[..|ends|] == ends;
  }

  lemma Difference<T>(a: multiset<T>, b: multiset<T>, x: multiset<T>)
    requires b == a + x
    ensures b == a + (b - a)
  {
  }

  lemma StartsOnlyGrow(c: Tracker.Config, s: Tracker.State, op: Tracker.Op, s': Tracker.State)
    requires Tracker.Step(c, s, op, s')
    ensures s'.started == s.started + (s'.started - s.started)
  {
    StartedBy(c, s, op, s');
  }

  lemma EndsOnlyGrow(c: Tracker.Config, s: Tracker.State, op: Tracker.Op, s': Tracker.State)
    requires Tracker.Step(c, s, op, s')
    ensures s'.ended == s.ended + (s'.ended - s.ended)
  {
    match op
    case Touch(id, path, now) =>
      if !Tracker.Continues(c.ttl, s.live, id, now) {
        var closed := Tracker.Closed(c.ttl, s.live, id, now);
        var evicted := Tracker.Finished(Tracker.Touched(c.ttl, s.live, id, path, now) - s'.live.Keys);
        assert s.ended + closed + evicted == s.ended + (closed + evicted);
        Difference(s.ended, s'.ended, closed + evicted);
      }
    case Extend(_, _) =>
    case Sweep(now) =>
      Difference(s.ended, s'.ended, Tracker.Finished(Bags.Only(s.live, Tracker.Stale(c.ttl, s.live, now))));
  }

  lemma ReportsOnlyGrow(c: Tracker.Config, s: Tracker.State, op: Tracker.Op, s': Tracker.State)
    requires Tracker.Step(c, s, op, s')
    ensures s'.started == s.started + (s'.started - s.started)
    ensures s'.ended == s.ended + (s'.ended - s.ended)
  {
    StartsOnlyGrow(c, s, op, s');
    EndsOnlyGrow(c, s, op, s');
  }

  ghost function At(t: Tracker.Sessions): Tracked
    reads t, t.sink
  {
    Tracked(t.config, t.Now())
  }

  method DeliverStarts(registry: Registry, site: string, starts: multiset<string>) returns (ghost done: seq<string>)
    modifies registry`sessionsTotal
    ensures multiset(done) == starts
    ensures registry.sessionsTotal == Started(old(registry.sessionsTotal), site, |done|)
  {
    done := [];
    var pending := starts;
    while pending != multiset{}
      invariant multiset(done) + pending == starts
      invariant registry.sessionsTotal == Started(old(registry.sessionsTotal), site, |done|)
      decreases |pending|
    {
      var path :| path in pending;
      pending := pending - multiset{path};
      registry.SessionStarted(site);
      done := done + [path];
    }
  }

  method DeliverEnds(registry: Registry, site: string, ends: multiset<Tracker.Ended>)
    returns (ghost done: seq<Tracker.Ended>)
    modifies registry`exits
    ensures multiset(done) == ends
    ensures registry.exits == Ended(old(registry.exits), site, done)
  {
    done := [];
    var pending := ends;
    while pending != multiset{}
      invariant multiset(done) + pending == ends
      invariant registry.exits == Ended(old(registry.exits), site, done)
      decreases |pending|
    {
      var e :| e in pending;
      pending := pending - multiset{e};
      OneEndMore(old(registry.exits), site, done, e);
      registry.SessionEnded(site, e.exit);
      done := done + [e];
    }
  }

  /** Counts what a tracker has reported, in any order. */
  method Deliver(registry: Registry, site: string, starts: multiset<string>, ends: multiset<Tracker.Ended>)
    returns (ghost rep: Reports)
    modifies registry`sessionsTotal, registry`exits
    ensures multiset(rep.starts) == starts && multiset(rep.ends) == ends
    ensures registry.Now() == Told(old(registry.Now()), site, rep)
  {
    ghost var started := DeliverStarts(registry, site, starts);
    ghost var ended := DeliverEnds(registry, site, ends);
    rep := Reports(started, ended);
  }

  // ---------------------------------------------------------------------
  // Calls
  // ---------------------------------------------------------------------

  /** The tracker's part in an observation, and what it reports. */
  method Listen(t: Tracker.Sessions, o: Observation, visitor: Tracker.Id, path: string)
    returns (isNew: bool, starts: multiset<string>, ends: multiset<Tracker.Ended>)
    requires t.Valid()
    modifies t, t.sink, t.Repr
    ensures t.Valid() && fresh(t.Repr - old(t.Repr))
    ensures Listens(old(At(t)), o, visitor, path, At(t))
    ensures isNew == IsNew(old(At(t)), o, visitor)
    ensures t.sink.started == old(t.sink.started) + starts
    ensures t.sink.ended == old(t.sink.ended) + ends
  {
    var started, ended := t.sink.started, t.sink.ended;
    ghost var was := t.Now();
    isNew := false;
    match o.kind {
      case Pageview =>
        isNew := t.Touch(visitor, path, o.at);
        ReportsOnlyGrow(t.config, was, Tracker.Touch(visitor, path, o.at), t.Now());
      case Engagement =>
        t.Extend(visitor, o.at);
        ReportsOnlyGrow(t.config, was, Tracker.Extend(visitor, o.at), t.Now());
      case Custom =>
    }
    starts, ends := t.sink.started - started, t.sink.ended - ended;
  }

  /** An observation of a known site, with the site's tracker. */
  method Record(registry: Registry, t: Tracker.Sessions, o: Observation, visitor: Tracker.Id)
    returns (ghost rep: Reports)
    requires registry.Valid() && o.site in registry.sites && t.Valid()
    modifies registry, t, t.sink, t.Repr
    ensures registry.Valid() && t.Valid() && fresh(t.Repr - old(t.Repr))
    ensures Listens(old(At(t)), o, visitor, old(PathShown(registry.sh, registry.Now(), o)), At(t))
    ensures Reported(old(t.Now()), rep, t.Now())
    ensures registry.Now()
            == AfterRecord(registry.sh, Told(old(registry.Now()), o.site, rep), o, IsNew(old(At(t)), o, visitor))
  {
    var path := PurePath(registry.sh, registry.sites[o.site], o).shown;
    var isNew, starts, ends := Listen(t, o, visitor, path);
    rep := Deliver(registry, o.site, starts, ends);
    registry.Record(o, isNew);
  }

  /** The tracker's part in maintenance. */
  method Sweep(t: Tracker.Sessions, now: int) returns (starts: multiset<string>, ends: multiset<Tracker.Ended>)
    requires t.Valid()
    modifies t, t.sink
    ensures t.Valid() && t.Repr == old(t.Repr)
    ensures Tracker.Step(t.config, old(t.Now()), Tracker.Sweep(now), t.Now())
    ensures t.sink.started == old(t.sink.started) + starts
    ensures t.sink.ended == old(t.sink.ended) + ends
  {
    var started, ended := t.sink.started, t.sink.ended;
    ghost var was := t.Now();
    var n := t.Sweep(now);
    ReportsOnlyGrow(t.config, was, Tracker.Sweep(now), t.Now());
    starts, ends := t.sink.started - started, t.sink.ended - ended;
  }

  method MaintainLabels(registry: Registry, domain: string, now: int)
    requires registry.Valid() && domain in registry.sites
    modifies registry
    ensures registry.Valid()
    ensures registry.Now() == Maintained(registry.sh, old(registry.Now()), domain, now)
  {
    MaintainedIsOk(registry.sh, registry.Now(), domain, now);
    registry.MaintainSite(domain, now);
  }

  /** The maintenance of one site: the sweep, then what the guards let go. */
  method MaintainSite(registry: Registry, t: Tracker.Sessions, domain: string, now: int) returns (ghost rep: Reports)
    requires registry.Valid() && domain in registry.sites && t.Valid()
    modifies registry, t, t.sink
    ensures registry.Valid() && t.Valid() && t.Repr == old(t.Repr)
    ensures Tracker.Step(t.config, old(t.Now()), Tracker.Sweep(now), t.Now())
    ensures Reported(old(t.Now()), rep, t.Now())
    ensures registry.Now() == Maintained(registry.sh, Told(old(registry.Now()), domain, rep), domain, now)
  {
    var starts, ends := Sweep(t, now);
    rep := Deliver(registry, domain, starts, ends);
    MaintainLabels(registry, domain, now);
  }

  // ---------------------------------------------------------------------
  // Calls are steps
  // ---------------------------------------------------------------------

  function WithTotals(r: Registered, totals: map<string, nat>): Registered {
    r.(sessionsTotal := totals)
  }

  function WithExits(r: Registered, exits: Family): Registered {
    r.(vecs := r.vecs.(exits := exits))
  }

  ghost function RunOf(sh: Shape): seq<R.Op> -> Registered
    requires sh.width > 0
  {
    (ops: seq<R.Op>) => R.Run(sh, ops)
  }

  /** What one report does. */
  function ToldOne(r: Registered, op: R.Op): Registered
    requires op.Started? || op.Ended?
  {
    if op.Started? then WithTotals(r, OneStarted(r.sessionsTotal, op.domain))
    else WithExits(r, Inc(r.vecs.exits, Series(op.domain, [], op.exitPath)))
  }

  /** `f` goes through reports as the registry does. */
  ghost predicate Follows(f: seq<R.Op> -> Registered) {
    forall ops: seq<R.Op>, op: R.Op :: op.Started? || op.Ended? ==> f(ops + [op]) == ToldOne(f(ops), op)
  }

  lemma StepTellsOne(sh: Shape, r: Registered, op: R.Op)
    requires Ok(sh, r) && (op.Started? || op.Ended?)
    ensures R.Step(sh, r, op) == ToldOne(r, op)
  {
  }

  lemma RunFollows(sh: Shape)
    requires sh.width > 0
    ensures Follows(RunOf(sh))
  {
    var f := RunOf(sh);
    forall ops: seq<R.Op>, op: R.Op | op.Started? || op.Ended?
      ensures f(ops + [op]) == ToldOne(f(ops), op)
    {
      RunOneMore(sh, ops, op);
      StepTellsOne(sh, R.Run(sh, ops), op);
    }
  }

  lemma StartsFedInParts(ops: seq<R.Op>, site: string, n: nat)
    requires n > 0
    ensures ops + StartsFed(site, n) == ops + StartsFed(site, n - 1) + [R.Started(site)]
  {
  }

  lemma OneStartTold(r: Registered, site: string, n: nat)
    requires n > 0
    ensures ToldOne(WithTotals(r, Started(r.sessionsTotal, site, n - 1)), R.Started(site))
            == WithTotals(r, Started(r.sessionsTotal, site, n))
  {
  }

  lemma OneEndTold(r: Registered, site: string, ends: seq<Tracker.Ended>)
    requires ends != []
    ensures ToldOne(
              WithExits(r, Ended(r.vecs.exits, site, ends[..|ends| - 1])), R.Ended(site, ends[|ends| - 1].exit))
            == WithExits(r, Ended(r.vecs.exits, site, ends))
  {
  }

  lemma {:induction false} StartsAreTold(f: seq<R.Op> -> Registered, ops: seq<R.Op>, site: string, n: nat)
    requires Follows(f)
    ensures f(ops + StartsFed(site, n)) == WithTotals(f(ops), Started(f(ops).sessionsTotal, site, n))
  {
    if n == 0 {
      assert ops + StartsFed(site, 0) == ops;
    } else {
      StartsAreTold(f, ops, site, n - 1);
      StartsFedInParts(ops, site, n);
      OneStartTold(f(ops), site, n);
    }
  }

  lemma {:induction false} EndsAreTold(
    f: seq<R.Op> -> Registered, ops: seq<R.Op>, site: string, ends: seq<Tracker.Ended>)
    requires Follows(f)
    ensures f(ops + EndsFed(site, ends)) == WithExits(f(ops), Ended(f(ops).vecs.exits, site, ends))
  {
    if ends == [] {
      assert ops + EndsFed(site, []) == ops;
    } else {
      EndsAreTold(f, ops, site, ends[..|ends| - 1]);
      EndsFedInParts(ops, site, ends);
      OneEndTold(f(ops), site, ends);
    }
  }

  lemma FedIsTold(f: seq<R.Op> -> Registered, ops: seq<R.Op>, site: string, rep: Reports)
    requires Follows(f)
    ensures f(ops + Fed(site, rep)) == Told(f(ops), site, rep)
  {
    StartsAreTold(f, ops, site, |rep.starts|);
    EndsAreTold(f, ops + StartsFed(site, |rep.starts|), site, rep.ends);
    FedInParts(ops, site, rep);
  }

  lemma ToldIsFed(sh: Shape, ops: seq<R.Op>, site: string, rep: Reports)
    requires sh.width > 0
    ensures R.Run(sh, ops + Fed(site, rep)) == Told(R.Run(sh, ops), site, rep)
  {
    RunFollows(sh);
    FedIsTold(RunOf(sh), ops, site, rep);
  }

  /** What `Record` does to a site and its tracker is a step of the whole. */
  lemma RecordIsAStep(
    sh: Shape, w: World, o: Observation, visitor: Tracker.Id, rep: Reports, t': Tracked, r': Registered)
    returns (w': World)
    requires sh.width > 0 && o.site in w.trackers
    requires var r, t := R.Run(sh, w.ops), w.trackers[o.site];
             && Listens(t, o, visitor, PathShown(sh, r, o), t')
             && Reported(t.state, rep, t'.state)
             && Ok(sh, Told(r, o.site, rep))
             && r' == AfterRecord(sh, Told(r, o.site, rep), o, IsNew(t, o, visitor))
    ensures Step(sh, w, SessionMetrics.Record(o, visitor), rep, w')
    ensures w'.trackers == w.trackers[o.site := t'] && R.Run(sh, w'.ops) == r'
  {
    var op := R.Record(o, IsNew(w.trackers[o.site], o, visitor));
    w' := World(w.ops + Fed(o.site, rep) + [op], w.trackers[o.site := t']);
    ToldIsFed(sh, w.ops, o.site, rep);
    RunOneMore(sh, w.ops + Fed(o.site, rep), op);
  }

  /** So is what `MaintainSite` does. */
  lemma MaintainSiteIsAStep(
    sh: Shape, w: World, domain: string, now: int, rep: Reports, t': Tracked, r': Registered) returns (w': World)
    requires sh.width > 0 && domain in w.trackers && domain in R.Run(sh, w.ops).sites
    requires var r, t := R.Run(sh, w.ops), w.trackers[domain];
             && t'.cfg == t.cfg && Tracker.Step(t.cfg, t.state, Tracker.Sweep(now), t'.state)
             && Reported(t.state, rep, t'.state)
             && r' == Maintained(sh, Told(r, domain, rep), domain, now)
    ensures Step(sh, w, SessionMetrics.Maintain(domain, now), rep, w')
    ensures w'.trackers == w.trackers[domain := t'] && R.Run(sh, w'.ops) == r'
  {
    var op := R.Maintain(domain, now);
    w' := World(w.ops + Fed(domain, rep) + [op], w.trackers[domain := t']);
    ToldIsFed(sh, w.ops, domain, rep);
    RunOneMore(sh, w.ops + Fed(domain, rep), op);
  }
}
