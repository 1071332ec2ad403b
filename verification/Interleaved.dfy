/** The session tracker under any number of workers. `Touch` is not one critical
    section: it gives up the lock between closing a stale session and opening
    the new one, again before it reports the start, and again before it evicts.
    Here every critical section and every report is a step of its own, and
    steps of different workers come in any order. */
module Interleaved {
  import opened Bags
  import opened Sessions
  import opened SessionRuns

  type Worker = nat

  /** Where a worker is between two steps. */
  datatype Phase =
    | Idle
    | Closing(id: Id, path: string, now: int, e: Ended)  // removed a stale session, not yet reported
    | Reopening(id: Id, path: string, now: int)          // reported it, has yet to open the new one
    | Announcing(path: string, over: bool)               // opened a session, not yet reported
    | Evicting                                           // reported it, owes an eviction
    | Draining(done: multiset<Ended>)                    // removed sessions, not all reported

  datatype World = World(
    live: map<Id, Live>, workers: map<Worker, Phase>, started: multiset<string>, ended: multiset<Ended>,
    overwritten: multiset<Ended>)

  function PhaseOf(ws: map<Worker, Phase>, w: Worker): Phase {
    if w in ws then ws[w] else Idle
  }

  function Drained(done: multiset<Ended>): Phase {
    if done == multiset{} then Idle else Draining(done)
  }

  datatype Act =
    | Begin(w: Worker, id: Id, path: string, now: int)
    | ReportClosed(w: Worker)
    | Insert(w: Worker)
    | ReportStart(w: Worker)
    | Evict(w: Worker)
    | ReportOne(w: Worker, e: Ended)
    | Ping(id: Id, now: int)
    | SweepAll(w: Worker, now: int)

  ghost function Replaced(live: map<Id, Live>, id: Id): multiset<Ended> {
    if id in live then multiset{Finish(live[id])} else multiset{}
  }

  /** One step. */
  ghost predicate Next(c: Config, s: World, act: Act, s': World) {
    match act
    case Begin(w, id, path, now) =>
      && PhaseOf(s.workers, w) == Idle
      && s' == if Continues(c.ttl, s.live, id, now) then s.(live := Touched(c.ttl, s.live, id, path, now))
               else if id in s.live then
                 s.(live := s.live - {id}, workers := s.workers[w := Closing(id, path, now, Finish(s.live[id]))])
               else Opening(c, s, w, id, path, now)
    case ReportClosed(w) =>
      var p := PhaseOf(s.workers, w);
      && p.Closing?
      && s' == s.(ended := s.ended + multiset{p.e}, workers := s.workers[w := Reopening(p.id, p.path, p.now)])
    case Insert(w) =>
      var p := PhaseOf(s.workers, w);
      && p.Reopening?
      && s' == Opening(c, s, w, p.id, p.path, p.now)
    case ReportStart(w) =>
      var p := PhaseOf(s.workers, w);
      && p.Announcing?
      && s' == s.(started := s.started + multiset{p.path},
                  workers := s.workers[w := if p.over then Evicting else Idle])
    case Evict(w) =>
      && PhaseOf(s.workers, w) == Evicting
      && Evicts(c.cap, s.live, s'.live)
      && s' == s.(live := s'.live, workers := s.workers[w := Drained(Finished(s.live - s'.live.Keys))])
    case ReportOne(w, e) =>
      var p := PhaseOf(s.workers, w);
      && p.Draining? && e in p.done
      && s' == s.(ended := s.ended + multiset{e}, workers := s.workers[w := Drained(p.done - multiset{e})])
    case Ping(id, now) => s' == s.(live := Extended(c.ttl, s.live, id, now))
    case SweepAll(w, now) =>
      var stale := Stale(c.ttl, s.live, now);
      && PhaseOf(s.workers, w) == Idle
      && s' == s.(live := s.live - stale, workers := s.workers[w := Drained(Finished(Only(s.live, stale)))])
  }

  /** Opening a session; one that is there by now is overwritten, unreported. */
  ghost function Opening(c: Config, s: World, w: Worker, id: Id, path: string, now: int): World {
    var live := s.live[id := Opened(path, now)];
    s.(live := live, overwritten := s.overwritten + Replaced(s.live, id),
       workers := s.workers[w := Announcing(path, |live| > c.cap)])
  }

  ghost predicate IsRun(c: Config, ss: seq<World>, acts: seq<Act>)
    decreases |acts|
  {
    && |ss| == |acts| + 1
    && if acts == [] then ss[0] == World(map[], map[], multiset{}, multiset{}, multiset{})
       else IsRun(c, ss[..|acts|], acts[..|acts| - 1]) && Next(c, ss[|acts| - 1], acts[|acts| - 1], ss[|acts|])
  }

  // ---------------------------------------------------------------------
  // What is under way
  // ---------------------------------------------------------------------

  ghost function UnreportedEnds(p: Phase): multiset<Ended> {
    match p
    case Closing(_, _, _, e) => multiset{e}
    case Draining(done) => done
    case _ => multiset{}
  }

  ghost function UnreportedStart(p: Phase): multiset<string> {
    if p.Announcing? then multiset{p.path} else multiset{}
  }

  /** A page view that has closed a session and not yet opened its own. */
  ghost function Waiting(p: Phase): multiset<Id> {
    match p
    case Closing(id, _, _, _) => multiset{id}
    case Reopening(id, _, _) => multiset{id}
    case _ => multiset{}
  }

  ghost function Owing(p: Phase): multiset<int> {
    if p.Evicting? || (p.Announcing? && p.over) then multiset{0} else multiset{}
  }

  /** Moving a worker to another phase trades one share for the other. */
  lemma MovesOn<T>(ws: map<Worker, Phase>, w: Worker, p: Phase, f: Phase -> multiset<T>)
    requires f(Idle) == multiset{}
    ensures Gather(ws[w := p], f) + f(PhaseOf(ws, w)) == Gather(ws, f) + f(p)
  {
    GatherPutsIn(ws, w, p, f);
  }

  /** Every session there ever was: reported, on its way to be, live, or overwritten. */
  ghost function Everything(s: World): multiset<Ended> {
    s.ended + Finished(s.live) + Gather(s.workers, UnreportedEnds) + s.overwritten
  }

  ghost function Starts(s: World): multiset<string> {
    s.started + Gather(s.workers, UnreportedStart)
  }

  ghost function Owed(s: World): nat {
    |Gather(s.workers, Owing)|
  }

  // ---------------------------------------------------------------------
  // Conservation
  // ---------------------------------------------------------------------

  lemma MovesOnAlike<T>(ws: map<Worker, Phase>, w: Worker, p: Phase, f: Phase -> multiset<T>)
    requires f(Idle) == multiset{} && f(p) == f(PhaseOf(ws, w))
    ensures Gather(ws[w := p], f) == Gather(ws, f)
  {
    MovesOn(ws, w, p, f);
    Cancel(Gather(ws[w := p], f), Gather(ws, f), f(p));
  }

  lemma OpeningEnds(c: Config, s: World, w: Worker, id: Id, path: string, now: int)
    requires PhaseOf(s.workers, w).Idle? || PhaseOf(s.workers, w).Reopening?
    ensures var s' := Opening(c, s, w, id, path, now);
            && Finished(s'.live) + Replaced(s.live, id) == Finished(s.live) + multiset{Finish(Opened(path, now))}
            && Gather(s'.workers, UnreportedEnds) == Gather(s.workers, UnreportedEnds)
  {
    FinishedPutsIn(s.live, id, Opened(path, now));
    MovesOnAlike(s.workers, w, Announcing(path, |s.live[id := Opened(path, now)]| > c.cap), UnreportedEnds);
  }

  lemma OpenTrades(
    ended: multiset<Ended>, live: multiset<Ended>, live': multiset<Ended>, under: multiset<Ended>,
    lost: multiset<Ended>, gone: multiset<Ended>, one: multiset<Ended>)
    requires live' + gone == live + one
    ensures ended + live' + under + (lost + gone) == ended + live + under + lost + one
  {
    assert ended + live' + under + (lost + gone) == ended + under + lost + (live' + gone);
    assert ended + live + under + lost + one == ended + under + lost + (live + one);
  }

  lemma OpeningAdds(c: Config, s: World, w: Worker, id: Id, path: string, now: int)
    requires PhaseOf(s.workers, w).Idle? || PhaseOf(s.workers, w).Reopening?
    ensures Everything(Opening(c, s, w, id, path, now)) == Everything(s) + multiset{Finish(Opened(path, now))}
  {
    var s' := Opening(c, s, w, id, path, now);
    OpeningEnds(c, s, w, id, path, now);
    OpenTrades(
      s.ended, Finished(s.live), Finished(s'.live), Gather(s.workers, UnreportedEnds), s.overwritten,
      Replaced(s.live, id), multiset{Finish(Opened(path, now))});
  }

  lemma StartTrades(started: multiset<string>, under: multiset<string>, under': multiset<string>, x: multiset<string>)
    ensures under' == under + x ==> started + under' == started + under + x
    ensures under' + x == under ==> started + x + under' == started + under
  {
  }

  lemma OpeningStarts(c: Config, s: World, w: Worker, id: Id, path: string, now: int)
    requires PhaseOf(s.workers, w).Idle? || PhaseOf(s.workers, w).Reopening?
    ensures Starts(Opening(c, s, w, id, path, now)) == Starts(s) + multiset{path}
  {
    var p := Announcing(path, |s.live[id := Opened(path, now)]| > c.cap);
    MovesOn(s.workers, w, p, UnreportedStart);
    StartTrades(
      s.started, Gather(s.workers, UnreportedStart), Gather(s.workers[w := p], UnreportedStart), multiset{path});
  }

  lemma OpeningEndsWait(c: Config, s: World, w: Worker, id: Id, path: string, now: int)
    requires PhaseOf(s.workers, w).Idle? || PhaseOf(s.workers, w).Reopening?
    ensures Gather(Opening(c, s, w, id, path, now).workers, Waiting) + Waiting(PhaseOf(s.workers, w))
            == Gather(s.workers, Waiting)
  {
    MovesOn(s.workers, w, Announcing(path, |s.live[id := Opened(path, now)]| > c.cap), Waiting);
  }

  lemma BeginCloses(s: World, w: Worker, id: Id, path: string, now: int)
    requires PhaseOf(s.workers, w) == Idle && id in s.live
    ensures var e := Finish(s.live[id]);
            var s' := s.(live := s.live - {id}, workers := s.workers[w := Closing(id, path, now, e)]);
            && Everything(s') == Everything(s)
            && Starts(s') == Starts(s)
            && Gather(s'.workers, Waiting) == Gather(s.workers, Waiting) + multiset{id}
  {
    var e := Finish(s.live[id]);
    var p := Closing(id, path, now, e);
    GatherTakesOut(s.live, id, FinishOne);
    MovesOn(s.workers, w, p, UnreportedEnds);
    MovesOnAlike(s.workers, w, p, UnreportedStart);
    MovesOn(s.workers, w, p, Waiting);
    CloseTrades(
      s.ended, Finished(s.live - {id}), Finished(s.live), Gather(s.workers, UnreportedEnds), s.overwritten,
      multiset{e});
  }

  lemma CloseTrades(
    ended: multiset<Ended>, left: multiset<Ended>, live: multiset<Ended>, under: multiset<Ended>,
    lost: multiset<Ended>, e: multiset<Ended>)
    requires live == e + left
    ensures ended + left + (under + e) + lost == ended + live + under + lost
  {
  }

  lemma LiveTrades(s: World, s': World, id: Id, v: Live)
    requires id in s.live && s' == s.(live := s.live[id := v])
    ensures Everything(s') + multiset{Finish(s.live[id])} == Everything(s) + multiset{Finish(v)}
    ensures Starts(s') == Starts(s) && s'.workers == s.workers
  {
    var rest := s.ended + Gather(s.workers, UnreportedEnds) + s.overwritten;
    var x, y := multiset{Finish(s.live[id])}, multiset{Finish(v)};
    FinishedPutsIn(s.live, id, v);
    assert Everything(s') + x == rest + (Finished(s'.live) + x);
    assert Everything(s) + y == rest + (Finished(s.live) + y);
  }

  /** A step that leaves everything where it was, on one side or another. */
  ghost predicate SameAccounts(s: World, s': World) {
    && Everything(s') == Everything(s)
    && Starts(s') == Starts(s)
    && Gather(s'.workers, Waiting) == Gather(s.workers, Waiting)
  }

  lemma ReportTrades(
    ended: multiset<Ended>, live: multiset<Ended>, under: multiset<Ended>, under': multiset<Ended>,
    lost: multiset<Ended>, e: multiset<Ended>)
    requires under == under' + e
    ensures ended + e + live + under' + lost == ended + live + under + lost
  {
  }

  lemma ReportClosedKeeps(c: Config, s: World, w: Worker, s': World)
    requires Next(c, s, ReportClosed(w), s')
    ensures SameAccounts(s, s')
  {
    var p := PhaseOf(s.workers, w);
    var p' := Reopening(p.id, p.path, p.now);
    MovesOn(s.workers, w, p', UnreportedEnds);
    MovesOnAlike(s.workers, w, p', UnreportedStart);
    MovesOnAlike(s.workers, w, p', Waiting);
    ReportTrades(
      s.ended, Finished(s.live), Gather(s.workers, UnreportedEnds), Gather(s'.workers, UnreportedEnds),
      s.overwritten, multiset{p.e});
  }

  lemma DrainingShare(done: multiset<Ended>)
    ensures UnreportedEnds(Drained(done)) == done
    ensures UnreportedStart(Drained(done)) == multiset{}
    ensures Waiting(Drained(done)) == multiset{} && Owing(Drained(done)) == multiset{}
  {
  }

  lemma OneLessToReport(u: multiset<Ended>, u': multiset<Ended>, done: multiset<Ended>, e: Ended)
    requires e in done && u' + done == u + (done - multiset{e})
    ensures u == u' + multiset{e}
  {
    var rest := done - multiset{e};
    assert done == multiset{e} + rest;
    assert u' + multiset{e} + rest == u + rest;
    Cancel(u, u' + multiset{e}, rest);
  }

  lemma DrainedMoves(ws: map<Worker, Phase>, w: Worker, e: Ended)
    requires PhaseOf(ws, w).Draining? && e in PhaseOf(ws, w).done
    ensures var p' := Drained(PhaseOf(ws, w).done - multiset{e});
            && Gather(ws, UnreportedEnds) == Gather(ws[w := p'], UnreportedEnds) + multiset{e}
            && Gather(ws[w := p'], UnreportedStart) == Gather(ws, UnreportedStart)
            && Gather(ws[w := p'], Waiting) == Gather(ws, Waiting)
  {
    var done := PhaseOf(ws, w).done;
    var p' := Drained(done - multiset{e});
    DrainingShare(done - multiset{e});
    MovesOn(ws, w, p', UnreportedEnds);
    MovesOnAlike(ws, w, p', UnreportedStart);
    MovesOnAlike(ws, w, p', Waiting);
    OneLessToReport(Gather(ws, UnreportedEnds), Gather(ws[w := p'], UnreportedEnds), done, e);
  }

  lemma ReportOneKeeps(c: Config, s: World, w: Worker, e: Ended, s': World)
    requires Next(c, s, ReportOne(w, e), s')
    ensures SameAccounts(s, s')
  {
    DrainedMoves(s.workers, w, e);
    ReportTrades(
      s.ended, Finished(s.live), Gather(s.workers, UnreportedEnds), Gather(s'.workers, UnreportedEnds),
      s.overwritten, multiset{e});
  }

  lemma AnnouncedMoves(ws: map<Worker, Phase>, w: Worker, p': Phase)
    requires PhaseOf(ws, w).Announcing? && (p' == Idle || p' == Evicting)
    ensures Gather(ws[w := p'], UnreportedEnds) == Gather(ws, UnreportedEnds)
    ensures Gather(ws[w := p'], UnreportedStart) + multiset{PhaseOf(ws, w).path} == Gather(ws, UnreportedStart)
    ensures Gather(ws[w := p'], Waiting) == Gather(ws, Waiting)
  {
    MovesOnAlike(ws, w, p', UnreportedEnds);
    MovesOn(ws, w, p', UnreportedStart);
    MovesOnAlike(ws, w, p', Waiting);
  }

  lemma ReportStartKeeps(c: Config, s: World, w: Worker, s': World)
    requires Next(c, s, ReportStart(w), s')
    ensures SameAccounts(s, s')
  {
    var p := PhaseOf(s.workers, w);
    AnnouncedMoves(s.workers, w, if p.over then Evicting else Idle);
    StartTrades(
      s.started, Gather(s.workers, UnreportedStart), Gather(s'.workers, UnreportedStart), multiset{p.path});
  }

  lemma DrainingMoves(ws: map<Worker, Phase>, w: Worker, done: multiset<Ended>)
    requires PhaseOf(ws, w) == Idle || PhaseOf(ws, w) == Evicting
    ensures Gather(ws[w := Drained(done)], UnreportedEnds) == Gather(ws, UnreportedEnds) + done
    ensures Gather(ws[w := Drained(done)], UnreportedStart) == Gather(ws, UnreportedStart)
    ensures Gather(ws[w := Drained(done)], Waiting) == Gather(ws, Waiting)
  {
    DrainingShare(done);
    MovesOn(ws, w, Drained(done), UnreportedEnds);
    MovesOnAlike(ws, w, Drained(done), UnreportedStart);
    MovesOnAlike(ws, w, Drained(done), Waiting);
  }

  lemma RemovalKeeps(s: World, w: Worker, done: multiset<Ended>, s': World)
    requires PhaseOf(s.workers, w) == Idle || PhaseOf(s.workers, w) == Evicting
    requires s' == s.(live := s'.live, workers := s.workers[w := Drained(done)])
    requires Finished(s.live) == done + Finished(s'.live)
    ensures SameAccounts(s, s')
  {
    DrainingMoves(s.workers, w, done);
    CloseTrades(
      s.ended, Finished(s'.live), Finished(s.live), Gather(s.workers, UnreportedEnds), s.overwritten, done);
  }

  ghost function Begun(acts: seq<Act>): nat {
    if acts == [] then 0
    else Begun(acts[..|acts| - 1]) + if acts[|acts| - 1].Begin? then 1 else 0
  }

  /** Every page view that is not waiting to reopen is accounted for, and so is
      every session, reported or under way. */
  ghost predicate Balanced(s: World, begun: nat) {
    && |Gather(s.workers, Waiting)| <= begun
    && Accounts(Everything(s), Starts(s), begun - |Gather(s.workers, Waiting)|)
  }

  lemma OpeningBalances(c: Config, s: World, w: Worker, id: Id, path: string, now: int, begun: nat)
    requires PhaseOf(s.workers, w).Idle? || PhaseOf(s.workers, w).Reopening?
    requires Balanced(s, begun)
    ensures Balanced(Opening(c, s, w, id, path, now), begun + if PhaseOf(s.workers, w).Idle? then 1 else 0)
  {
    var s' := Opening(c, s, w, id, path, now);
    OpeningAdds(c, s, w, id, path, now);
    OpeningStarts(c, s, w, id, path, now);
    OpeningEndsWait(c, s, w, id, path, now);
    AccountsForOneMore(
      Everything(s), Starts(s), begun - |Gather(s.workers, Waiting)|, Finish(Opened(path, now)));
    assert |Gather(s'.workers, Waiting)| + |Waiting(PhaseOf(s.workers, w))| == |Gather(s.workers, Waiting)|;
  }

  lemma LiveBalances(s: World, s': World, id: Id, v: Live, begun: nat)
    requires Balanced(s, begun) && id in s.live && s' == s.(live := s.live[id := v])
    requires v.entry == s.live[id].entry && v.pages >= s.live[id].pages
    ensures Balanced(s', begun + v.pages - s.live[id].pages)
  {
    LiveTrades(s, s', id, v);
    AccountsForReplaced(
      Everything(s), Everything(s'), Starts(s), begun - |Gather(s.workers, Waiting)|,
      Finish(s.live[id]), Finish(v));
  }

  lemma BeginBalances(c: Config, s: World, act: Act, s': World, begun: nat)
    requires act.Begin? && Next(c, s, act, s') && Balanced(s, begun)
    ensures Balanced(s', begun + 1)
  {
    if Continues(c.ttl, s.live, act.id, act.now) {
      LiveBalances(s, s', act.id, Viewed(s.live[act.id], act.path, act.now), begun);
    } else if act.id in s.live {
      BeginCloses(s, act.w, act.id, act.path, act.now);
    } else {
      OpeningBalances(c, s, act.w, act.id, act.path, act.now, begun);
    }
  }

  lemma SameStaysBalanced(s: World, s': World, begun: nat)
    requires Balanced(s, begun) && SameAccounts(s, s')
    ensures Balanced(s', begun)
  {
  }

  lemma StepBalances(c: Config, s: World, act: Act, s': World, begun: nat)
    requires Next(c, s, act, s') && Balanced(s, begun) && !act.Begin?
    ensures Balanced(s', begun)
  {
    match act
    case Insert(w) =>
      var p := PhaseOf(s.workers, w);
      OpeningBalances(c, s, w, p.id, p.path, p.now, begun);
    case Ping(id, now) =>
      if Continues(c.ttl, s.live, id, now) {
        LiveBalances(s, s', id, s.live[id].(lastSeen := now), begun);
      }
    case ReportClosed(w) =>
      ReportClosedKeeps(c, s, w, s');
      SameStaysBalanced(s, s', begun);
    case ReportStart(w) =>
      ReportStartKeeps(c, s, w, s');
      SameStaysBalanced(s, s', begun);
    case ReportOne(w, e) =>
      ReportOneKeeps(c, s, w, e, s');
      SameStaysBalanced(s, s', begun);
    case Evict(w) =>
      EvictionSplits(c.cap, s.live, s'.live);
      RemovalKeeps(s, w, Finished(s.live - s'.live.Keys), s');
      SameStaysBalanced(s, s', begun);
    case SweepAll(w, now) =>
      FinishedSplits(s.live, Stale(c.ttl, s.live, now));
      RemovalKeeps(s, w, Finished(Only(s.live, Stale(c.ttl, s.live, now))), s');
      SameStaysBalanced(s, s', begun);
  }

  lemma {:induction false} RunBalances(c: Config, ss: seq<World>, acts: seq<Act>)
    requires IsRun(c, ss, acts)
    ensures Balanced(ss[|acts|], Begun(acts))
    decreases |acts|
  {
    if acts == [] {
      assert Everything(ss[0]) == multiset{};
    } else {
      RunBalances(c, ss[..|acts|], acts[..|acts| - 1]);
      if acts[|acts| - 1].Begin? {
        BeginBalances(c, ss[|acts| - 1], acts[|acts| - 1], ss[|acts|], Begun(acts[..|acts| - 1]));
      } else {
        StepBalances(c, ss[|acts| - 1], acts[|acts| - 1], ss[|acts|], Begun(acts[..|acts| - 1]));
      }
    }
  }

  /** At every moment of every interleaving, sessions started, the reports under
      way included, are sessions ended, live and overwritten; the same holds
      path by path for the entry paths; and the page counts add up to the page
      views that are not just then between closing and reopening. */
  lemma NothingElseIsLost(c: Config, ss: seq<World>, acts: seq<Act>)
    requires IsRun(c, ss, acts)
    ensures var s := ss[|acts|];
            var underWay := Gather(s.workers, UnreportedEnds);
            && |s.started| + |Gather(s.workers, UnreportedStart)|
               == |s.ended| + |underWay| + |s.live| + |s.overwritten|
            && (forall p :: Starts(s)[p] == Sum(Everything(s), EnteredAt(p)))
            && Sum(Everything(s), PagesOf) + |Gather(s.workers, Waiting)| == Begun(acts)
  {
    RunBalances(c, ss, acts);
    FinishedSize(ss[|acts|].live);
  }

  // ---------------------------------------------------------------------
  // The cap
  // ---------------------------------------------------------------------

  function Room(c: Config): nat {
    if c.cap < 0 then 0 else c.cap
  }

  lemma StoringGrowsByOne(m: map<Id, Live>, id: Id, v: Live)
    ensures |m[id := v]| == if id in m then |m| else |m| + 1
  {
    assert |m[id := v]| == |m[id := v].Keys| && |m| == |m.Keys|;
    assert m[id := v].Keys == m.Keys + {id};
  }

  lemma RemovingShrinks(m: map<Id, Live>, ids: set<Id>)
    ensures |m - ids| <= |m|
  {
    assert |m| == |m.Keys| && |m - ids| == |(m - ids).Keys|;
    assert m.Keys == (m - ids).Keys + (m.Keys - (m - ids).Keys);
  }

  lemma OwingMoves(ws: map<Worker, Phase>, w: Worker, p: Phase)
    ensures |Gather(ws[w := p], Owing)| + |Owing(PhaseOf(ws, w))| == |Gather(ws, Owing)| + |Owing(p)|
  {
    MovesOn(ws, w, p, Owing);
    assert |Gather(ws[w := p], Owing) + Owing(PhaseOf(ws, w))| == |Gather(ws, Owing) + Owing(p)|;
  }

  lemma OpeningOwes(c: Config, s: World, w: Worker, id: Id, path: string, now: int)
    requires |s.live| <= Room(c) + Owed(s)
    requires PhaseOf(s.workers, w).Idle? || PhaseOf(s.workers, w).Reopening?
    ensures |Opening(c, s, w, id, path, now).live| <= Room(c) + Owed(Opening(c, s, w, id, path, now))
  {
    var live := s.live[id := Opened(path, now)];
    StoringGrowsByOne(s.live, id, Opened(path, now));
    OwingMoves(s.workers, w, Announcing(path, |live| > c.cap));
  }

  lemma BeginStaysWithinRoom(c: Config, s: World, act: Act, s': World)
    requires act.Begin? && Next(c, s, act, s') && |s.live| <= Room(c) + Owed(s)
    ensures |s'.live| <= Room(c) + Owed(s')
  {
    if Continues(c.ttl, s.live, act.id, act.now) {
      StoringGrowsByOne(s.live, act.id, Viewed(s.live[act.id], act.path, act.now));
    } else if act.id in s.live {
      RemovingShrinks(s.live, {act.id});
      OwingMoves(s.workers, act.w, Closing(act.id, act.path, act.now, Finish(s.live[act.id])));
    } else {
      OpeningOwes(c, s, act.w, act.id, act.path, act.now);
    }
  }

  lemma DrainedOwesNothing(ws: map<Worker, Phase>, w: Worker, done: multiset<Ended>)
    ensures |Gather(ws[w := Drained(done)], Owing)| == |Gather(ws, Owing)| - |Owing(PhaseOf(ws, w))|
  {
    DrainingShare(done);
    OwingMoves(ws, w, Drained(done));
  }

  lemma ReportClosedOwesSame(c: Config, s: World, w: Worker, s': World)
    requires Next(c, s, ReportClosed(w), s')
    ensures s'.live == s.live && Owed(s') == Owed(s)
  {
    var p := PhaseOf(s.workers, w);
    OwingMoves(s.workers, w, Reopening(p.id, p.path, p.now));
  }

  lemma ReportStartOwesSame(c: Config, s: World, w: Worker, s': World)
    requires Next(c, s, ReportStart(w), s')
    ensures s'.live == s.live && Owed(s') == Owed(s)
  {
    OwingMoves(s.workers, w, if PhaseOf(s.workers, w).over then Evicting else Idle);
  }

  lemma ReportOneOwesSame(c: Config, s: World, w: Worker, e: Ended, s': World)
    requires Next(c, s, ReportOne(w, e), s')
    ensures s'.live == s.live && Owed(s') == Owed(s)
  {
    DrainedOwesNothing(s.workers, w, PhaseOf(s.workers, w).done - multiset{e});
  }

  lemma EvictStaysWithinRoom(c: Config, s: World, w: Worker, s': World)
    requires Next(c, s, Evict(w), s')
    ensures |s'.live| <= Room(c)
  {
  }

  lemma SweepStaysWithinRoom(c: Config, s: World, w: Worker, now: int, s': World)
    requires Next(c, s, SweepAll(w, now), s')
    ensures |s'.live| <= |s.live| && Owed(s') == Owed(s)
  {
    RemovingShrinks(s.live, Stale(c.ttl, s.live, now));
    DrainedOwesNothing(s.workers, w, Finished(Only(s.live, Stale(c.ttl, s.live, now))));
  }

  lemma StepStaysWithinRoom(c: Config, s: World, act: Act, s': World)
    requires Next(c, s, act, s') && !act.Begin? && |s.live| <= Room(c) + Owed(s)
    ensures |s'.live| <= Room(c) + Owed(s')
  {
    match act
    case Insert(w) =>
      var p := PhaseOf(s.workers, w);
      OpeningOwes(c, s, w, p.id, p.path, p.now);
    case Evict(w) => EvictStaysWithinRoom(c, s, w, s');
    case Ping(id, now) =>
      if Continues(c.ttl, s.live, id, now) {
        StoringGrowsByOne(s.live, id, s.live[id].(lastSeen := now));
      }
    case SweepAll(w, now) => SweepStaysWithinRoom(c, s, w, now, s');
    case ReportClosed(w) => ReportClosedOwesSame(c, s, w, s');
    case ReportStart(w) => ReportStartOwesSame(c, s, w, s');
    case ReportOne(w, e) => ReportOneOwesSame(c, s, w, e, s');
  }

  /** Live sessions never exceed the cap by more than the evictions still owed. */
  lemma {:induction false} OverflowIsOwed(c: Config, ss: seq<World>, acts: seq<Act>)
    requires IsRun(c, ss, acts)
    ensures |ss[|acts|].live| <= Room(c) + Owed(ss[|acts|])
    decreases |acts|
  {
    if acts != [] {
      OverflowIsOwed(c, ss[..|acts|], acts[..|acts| - 1]);
      if acts[|acts| - 1].Begin? {
        BeginStaysWithinRoom(c, ss[|acts| - 1], acts[|acts| - 1], ss[|acts|]);
      } else {
        StepStaysWithinRoom(c, ss[|acts| - 1], acts[|acts| - 1], ss[|acts|]);
      }
    }
  }

  // ---------------------------------------------------------------------
  // Overwriting
  // ---------------------------------------------------------------------

  /** A session is overwritten exactly when a reopening finds its id live again. */
  lemma OnlyReopeningOverwrites(c: Config, s: World, act: Act, s': World)
    requires Next(c, s, act, s')
    ensures s'.overwritten != s.overwritten
            <==> act.Insert? && PhaseOf(s.workers, act.w).id in s.live
  {
    if act.Insert? {
      var id := PhaseOf(s.workers, act.w).id;
      if id in s.live {
        assert s'.overwritten[Finish(s.live[id])] == s.overwritten[Finish(s.live[id])] + 1;
      }
    }
  }

  ghost predicate WaitsFor(s: World, w: Worker, id: Id) {
    WaitsIn(PhaseOf(s.workers, w), id)
  }

  /** Nobody begins a page view for an id that another worker is about to reopen. */
  ghost predicate Polite(s: World, act: Act) {
    act.Begin? ==> forall w :: !WaitsFor(s, w, act.id)
  }

  ghost predicate AllPolite(ss: seq<World>, acts: seq<Act>)
    requires |ss| == |acts| + 1
  {
    forall k :: 0 <= k < |acts| ==> Polite(ss[k], acts[k])
  }

  /** An id that somebody waits to reopen is not live, and has one such worker. */
  ghost predicate Exclusive(s: World) {
    && (forall w, id :: WaitsFor(s, w, id) ==> id !in s.live)
    && (forall v, w, id :: WaitsFor(s, v, id) && WaitsFor(s, w, id) ==> v == w)
  }

  ghost predicate WaitsIn(p: Phase, id: Id) {
    (p.Closing? || p.Reopening?) && p.id == id
  }

  lemma MovedWaiters(ws: map<Worker, Phase>, v: Worker, p: Phase, w: Worker, id: Id)
    requires WaitsIn(PhaseOf(ws[v := p], w), id)
    ensures if w == v then WaitsIn(p, id) else WaitsIn(PhaseOf(ws, w), id)
  {
  }

  /** Only beginning a page view of a stale session makes anybody wait. */
  lemma WaitersWaited(c: Config, s: World, act: Act, s': World, w: Worker, id: Id)
    requires Next(c, s, act, s') && WaitsFor(s', w, id)
    ensures WaitsFor(s, w, id)
            || (act.Begin? && act.w == w && act.id == id && id in s.live && s'.live == s.live - {id})
    ensures act.Insert? ==> w != act.w
  {
    if !act.Ping? && s'.workers != s.workers {
      MovedWaiters(s.workers, act.w, PhaseOf(s'.workers, act.w), w, id);
    }
  }

  /** Only opening a session makes an id live. */
  lemma LiveWereLive(c: Config, s: World, act: Act, s': World, id: Id)
    requires Next(c, s, act, s') && id in s'.live && id !in s.live
    ensures (act.Begin? && act.id == id) || (act.Insert? && WaitsFor(s, act.w, id))
  {
  }

  lemma StepStaysExclusive(c: Config, s: World, act: Act, s': World)
    requires Next(c, s, act, s') && Exclusive(s) && Polite(s, act)
    ensures Exclusive(s')
  {
    forall w, id | WaitsFor(s', w, id)
      ensures id !in s'.live
    {
      WaitersWaited(c, s, act, s', w, id);
      if id in s'.live {
        LiveWereLive(c, s, act, s', id);
      }
    }
    forall v, w, id | WaitsFor(s', v, id) && WaitsFor(s', w, id)
      ensures v == w
    {
      WaitersWaited(c, s, act, s', v, id);
      WaitersWaited(c, s, act, s', w, id);
    }
  }

  lemma ExclusiveStepOverwritesNothing(c: Config, s: World, act: Act, s': World)
    requires Next(c, s, act, s') && Exclusive(s)
    ensures s'.overwritten == s.overwritten
  {
    if act.Insert? {
      assert WaitsFor(s, act.w, PhaseOf(s.workers, act.w).id);
    }
  }

  /** If no two page views in flight share an id at the moment one of them is
      to reopen it, nothing is ever overwritten, and so nothing is lost. */
  lemma {:induction false} PoliteRunsOverwriteNothing(c: Config, ss: seq<World>, acts: seq<Act>)
    requires IsRun(c, ss, acts) && AllPolite(ss, acts)
    ensures Exclusive(ss[|acts|]) && ss[|acts|].overwritten == multiset{}
    decreases |acts|
  {
    if acts != [] {
      var k := |acts| - 1;
      assert AllPolite(ss[..|acts|], acts[..k]) by {
        forall i | 0 <= i < k ensures Polite(ss[..|acts|][i], acts[..k][i]) { assert Polite(ss[i], acts[i]); }
      }
      PoliteRunsOverwriteNothing(c, ss[..|acts|], acts[..k]);
      assert Polite(ss[k], acts[k]);
      StepStaysExclusive(c, ss[k], acts[k], ss[|acts|]);
      ExclusiveStepOverwritesNothing(c, ss[k], acts[k], ss[|acts|]);
    }
  }

  lemma CanClose(c: Config, s: World, w: Worker, id: Id, path: string, now: int) returns (s': World)
    requires PhaseOf(s.workers, w) == Idle && id in s.live && !Continues(c.ttl, s.live, id, now)
    ensures Next(c, s, Begin(w, id, path, now), s')
    ensures s' == s.(live := s.live - {id}, workers := s.workers[w := Closing(id, path, now, Finish(s.live[id]))])
  {
    s' := s.(live := s.live - {id}, workers := s.workers[w := Closing(id, path, now, Finish(s.live[id]))]);
  }

  lemma CanOpen(c: Config, s: World, w: Worker, id: Id, path: string, now: int) returns (s': World)
    requires PhaseOf(s.workers, w) == Idle && id !in s.live
    ensures Next(c, s, Begin(w, id, path, now), s') && s' == Opening(c, s, w, id, path, now)
  {
    s' := Opening(c, s, w, id, path, now);
  }

  lemma CanReportClosed(c: Config, s: World, w: Worker) returns (s': World)
    requires PhaseOf(s.workers, w).Closing?
    ensures Next(c, s, ReportClosed(w), s')
    ensures var p := PhaseOf(s.workers, w);
            s' == s.(ended := s.ended + multiset{p.e}, workers := s.workers[w := Reopening(p.id, p.path, p.now)])
  {
    var p := PhaseOf(s.workers, w);
    s' := s.(ended := s.ended + multiset{p.e}, workers := s.workers[w := Reopening(p.id, p.path, p.now)]);
  }

  lemma CanInsert(c: Config, s: World, w: Worker) returns (s': World)
    requires PhaseOf(s.workers, w).Reopening?
    ensures Next(c, s, Insert(w), s')
    ensures var p := PhaseOf(s.workers, w); s' == Opening(c, s, w, p.id, p.path, p.now)
  {
    var p := PhaseOf(s.workers, w);
    s' := Opening(c, s, w, p.id, p.path, p.now);
  }

  /** The politeness is needed at every single step: while `v` waits to reopen
      `id`, any page view that an idle `w` begins for `id` opens a session that
      `v`, going on alone, overwrites. */
  lemma ImpolitenessCanOverwrite(c: Config, s: World, v: Worker, w: Worker, id: Id, path: string, now: int)
    returns (s1: World, s2: World, s3: World)
    requires Exclusive(s) && WaitsFor(s, v, id) && PhaseOf(s.workers, w) == Idle
    ensures !Polite(s, Begin(w, id, path, now)) && Next(c, s, Begin(w, id, path, now), s1)
    ensures if PhaseOf(s.workers, v).Closing? then Next(c, s1, ReportClosed(v), s2) else s2 == s1
    ensures Next(c, s2, Insert(v), s3)
    ensures s3.overwritten == s.overwritten + multiset{Finish(Opened(path, now))}
  {
    s1 := CanOpen(c, s, w, id, path, now);
    s2 := s1;
    if PhaseOf(s.workers, v).Closing? {
      s2 := CanReportClosed(c, s1, v);
    }
    s3 := CanInsert(c, s2, v);
  }

  /** Such states are everywhere. Whenever a visitor's session has gone stale, two
      page views of that visitor can overlap so that one session is lost: the
      first closes the old session and the second finds none and opens one;
      then the first opens its own over it, which nobody will ever report. */
  lemma OverlappingViewsLoseASession(
    c: Config, s: World, v: Worker, w: Worker, id: Id, first: string, second: string, now: int)
    returns (s1: World, s2: World, s3: World, s4: World)
    requires v != w && PhaseOf(s.workers, v) == Idle && PhaseOf(s.workers, w) == Idle
    requires id in s.live && !Continues(c.ttl, s.live, id, now)
    ensures Next(c, s, Begin(v, id, first, now), s1)
    ensures Next(c, s1, Begin(w, id, second, now), s2)
    ensures Next(c, s2, ReportClosed(v), s3)
    ensures Next(c, s3, Insert(v), s4)
    ensures s4.live == s.live[id := Opened(first, now)]
    ensures s4.ended == s.ended + multiset{Finish(s.live[id])}
    ensures s4.overwritten == s.overwritten + multiset{Finish(Opened(second, now))}
  {
    s1 := CanClose(c, s, v, id, first, now);
    s2 := CanOpen(c, s1, w, id, second, now);
    s3 := CanReportClosed(c, s2, v);
    s4 := CanInsert(c, s3, v);
    assert s4.live == s.live[id := Opened(first, now)];
  }

  // ---------------------------------------------------------------------
  // Alone
  // ---------------------------------------------------------------------

  /** `ss` are the worlds before, between and after the steps `acts`. */
  ghost predicate Chain(c: Config, ss: seq<World>, acts: seq<Act>) {
    && |ss| == |acts| + 1
    && (forall k :: 0 <= k < |acts| ==> Next(c, ss[k], acts[k], ss[k + 1]))
  }

  lemma ChainMore(c: Config, ss: seq<World>, acts: seq<Act>, act: Act, s': World)
    requires Chain(c, ss, acts) && Next(c, ss[|acts|], act, s')
    ensures Chain(c, ss + [s'], acts + [act])
  {
    var ss', acts' := ss + [s'], acts + [act];
    forall k | 0 <= k < |acts'|
      ensures Next(c, ss'[k], acts'[k], ss'[k + 1])
    {
      if k < |acts| {
        assert Next(c, ss[k], acts[k], ss[k + 1]);
      }
    }
  }

  /** Worker `w` reports what it has to, with nobody in between. */
  lemma {:induction false} DrainAlone(c: Config, ss: seq<World>, acts: seq<Act>, w: Worker, done: multiset<Ended>)
    returns (ss': seq<World>, acts': seq<Act>)
    requires Chain(c, ss, acts) && ss[|acts|].workers == ss[|acts|].workers[w := Drained(done)]
    ensures Chain(c, ss', acts') && ss'[0] == ss[0]
    ensures var s, s' := ss[|acts|], ss'[|acts'|];
            s' == s.(ended := s.ended + done, workers := s.workers[w := Idle])
    decreases |done|
  {
    var s := ss[|acts|];
    if done == multiset{} {
      ss', acts' := ss, acts;
    } else {
      var e := Pick(done);
      var rest := done - multiset{e};
      var s1 := s.(ended := s.ended + multiset{e}, workers := s.workers[w := Drained(rest)]);
      assert PhaseOf(s.workers, w) == Draining(done);
      ChainMore(c, ss, acts, ReportOne(w, e), s1);
      ss', acts' := DrainAlone(c, ss + [s1], acts + [ReportOne(w, e)], w, rest);
      assert s.ended + multiset{e} + rest == s.ended + done by {
        assert done == multiset{e} + rest;
      }
      assert s1.workers[w := Idle] == s.workers[w := Idle];
    }
  }

  /** From an opened session to the end of the call. */
  lemma AnnounceAlone(
    c: Config, ss: seq<World>, acts: seq<Act>, w: Worker, path: string, live: map<Id, Live>)
    returns (ss': seq<World>, acts': seq<Act>)
    requires Chain(c, ss, acts) && Evicts(c.cap, ss[|acts|].live, live)
    requires PhaseOf(ss[|acts|].workers, w) == Announcing(path, |ss[|acts|].live| > c.cap)
    ensures Chain(c, ss', acts') && ss'[0] == ss[0]
    ensures var s, s' := ss[|acts|], ss'[|acts'|];
            s' == s.(live := live, started := s.started + multiset{path},
                     ended := s.ended + Finished(s.live - live.Keys), workers := s.workers[w := Idle])
  {
    var s := ss[|acts|];
    var over := |s.live| > c.cap;
    var s1 := s.(started := s.started + multiset{path}, workers := s.workers[w := if over then Evicting else Idle]);
    ChainMore(c, ss, acts, ReportStart(w), s1);
    ss', acts' := ss + [s1], acts + [ReportStart(w)];
    if over {
      var done := Finished(s.live - live.Keys);
      var s2 := s1.(live := live, workers := s1.workers[w := Drained(done)]);
      ChainMore(c, ss', acts', Evict(w), s2);
      ss', acts' := DrainAlone(c, ss' + [s2], acts' + [Evict(w)], w, done);
      assert s2.workers[w := Idle] == s.workers[w := Idle];
    } else {
      EvictsAsManyAsNeeded(c.cap, s.live, live);
      NothingToEvict(c.cap, s.live);
    }
  }

  lemma ReopenAlone(c: Config, s: World, w: Worker, id: Id, path: string, now: int, live: map<Id, Live>)
    returns (ss: seq<World>, acts: seq<Act>)
    requires PhaseOf(s.workers, w) == Idle && id in s.live && !Continues(c.ttl, s.live, id, now)
    requires Evicts(c.cap, s.live[id := Opened(path, now)], live)
    ensures Chain(c, ss, acts) && ss[0] == s
    ensures ss[|acts|]
            == s.(live := live, started := s.started + multiset{path},
                  ended := s.ended + multiset{Finish(s.live[id])}
                           + Finished(s.live[id := Opened(path, now)] - live.Keys),
                  workers := s.workers[w := Idle])
  {
    var s1 := CanClose(c, s, w, id, path, now);
    var s2 := CanReportClosed(c, s1, w);
    var s3 := CanInsert(c, s2, w);
    var three := [Begin(w, id, path, now), ReportClosed(w), Insert(w)];
    assert s3.live == s.live[id := Opened(path, now)];
    ss, acts := AnnounceAlone(c, [s, s1, s2, s3], three, w, path, live);
    assert s3.workers[w := Idle] == s.workers[w := Idle];
  }
  lemma OpenAlone(c: Config, s: World, w: Worker, id: Id, path: string, now: int, live: map<Id, Live>)
    returns (ss: seq<World>, acts: seq<Act>)
    requires PhaseOf(s.workers, w) == Idle && id !in s.live
    requires Evicts(c.cap, s.live[id := Opened(path, now)], live)
    ensures Chain(c, ss, acts) && ss[0] == s
    ensures ss[|acts|]
            == s.(live := live, started := s.started + multiset{path},
                  ended := s.ended + Finished(s.live[id := Opened(path, now)] - live.Keys),
                  workers := s.workers[w := Idle])
  {
    var s1 := CanOpen(c, s, w, id, path, now);
    ss, acts := AnnounceAlone(c, [s, s1], [Begin(w, id, path, now)], w, path, live);
    assert s1.workers[w := Idle] == s.workers[w := Idle];
  }

  lemma SerialOpening(c: Config, s: State, id: Id, path: string, now: int, t: State)
    requires Step(c, s, Touch(id, path, now), t) && !Continues(c.ttl, s.live, id, now)
    ensures Evicts(c.cap, s.live[id := Opened(path, now)], t.live)
    ensures t.started == s.started + multiset{path}
    ensures t.ended
            == s.ended + Closed(c.ttl, s.live, id, now) + Finished(s.live[id := Opened(path, now)] - t.live.Keys)
  {
  }

  /** A call has been taken from `s` to `s'`, where the tracker is as in `t`. */
  ghost predicate EndsLike(s: World, s': World, t: State) {
    && s'.live == t.live && s'.started == t.started && s'.ended == t.ended
    && s'.overwritten == s.overwritten
    && (forall v :: PhaseOf(s'.workers, v) == PhaseOf(s.workers, v))
  }

  /** What a worker's page view does when nobody else steps in between is what the
      serial call does. */
  lemma AloneIsSerial(c: Config, s: World, w: Worker, id: Id, path: string, now: int, evicted: nat, t: State)
    returns (ss: seq<World>, acts: seq<Act>)
    requires PhaseOf(s.workers, w) == Idle
    requires Step(c, State(s.live, evicted, s.started, s.ended), Touch(id, path, now), t)
    ensures Chain(c, ss, acts) && ss[0] == s && EndsLike(s, ss[|acts|], t)
  {
    if Continues(c.ttl, s.live, id, now) {
      ss, acts := [s, s.(live := Touched(c.ttl, s.live, id, path, now))], [Begin(w, id, path, now)];
    } else {
      SerialOpening(c, State(s.live, evicted, s.started, s.ended), id, path, now, t);
      if id in s.live {
        ss, acts := ReopenAlone(c, s, w, id, path, now, t.live);
      } else {
        ss, acts := OpenAlone(c, s, w, id, path, now, t.live);
        assert s.ended + multiset{} == s.ended;
      }
    }
  }

  /** So is a sweep's, and an engagement's. */
  lemma SweepAloneIsSerial(c: Config, s: World, w: Worker, now: int, evicted: nat, t: State)
    returns (ss: seq<World>, acts: seq<Act>)
    requires PhaseOf(s.workers, w) == Idle
    requires Step(c, State(s.live, evicted, s.started, s.ended), Sweep(now), t)
    ensures Chain(c, ss, acts) && ss[0] == s && EndsLike(s, ss[|acts|], t)
  {
    var stale := Stale(c.ttl, s.live, now);
    var done := Finished(Only(s.live, stale));
    var s1 := s.(live := s.live - stale, workers := s.workers[w := Drained(done)]);
    assert s1.workers[w := Drained(done)] == s1.workers;
    ss, acts := DrainAlone(c, [s, s1], [SweepAll(w, now)], w, done);
  }

  lemma PingIsSerial(c: Config, s: World, id: Id, now: int, evicted: nat, t: State, s': World)
    requires Step(c, State(s.live, evicted, s.started, s.ended), Extend(id, now), t)
    requires Next(c, s, Ping(id, now), s')
    ensures EndsLike(s, s', t)
  {
  }
}
