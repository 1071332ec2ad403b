/** What the session tracker guarantees on whole runs of calls: nothing is lost
    or counted twice, and when the sweep happens to run does not matter. */
module SessionRuns {
  import opened Bags
  import opened Sessions

  /** A run: the states before, between and after the calls `ops`. */
  ghost predicate IsRun(c: Config, ss: seq<State>, ops: seq<Op>)
    decreases |ops|
  {
    && |ss| == |ops| + 1
    && if ops == [] then ss[0] == State(map[], 0, multiset{}, multiset{})
       else IsRun(c, ss[..|ops|], ops[..|ops| - 1]) && Step(c, ss[|ops| - 1], ops[|ops| - 1], ss[|ops|])
  }

  /** Everything that is or will be reported: the ended sessions, and the live
      ones as they would be reported now. */
  ghost function Total(s: State): multiset<Ended> {
    s.ended + Finished(s.live)
  }

  lemma SubmapOfSameSize(m: map<Id, Live>, m': map<Id, Live>)
    requires m'.Keys <= m.Keys && m' == Only(m, m'.Keys) && |m'| == |m|
    ensures m' == m
  {
    assert m.Keys == m'.Keys + (m.Keys - m'.Keys);
    assert |m| == |m.Keys| && |m'| == |m'.Keys|;
  }

  lemma {:induction false} FinishedSize(m: map<Id, Live>)
    ensures |Finished(m)| == |m|
    decreases |m|
  {
    if m != map[] {
      var id := PickKey(m);
      FinishedSize(m - {id});
      assert |m| == |m - {id}| + 1 by {
        assert m.Keys == (m - {id}).Keys + {id};
        assert |m| == |m.Keys| && |m - {id}| == |(m - {id}).Keys|;
      }
    }
  }

  lemma FinishedPutsIn(m: map<Id, Live>, id: Id, v: Live)
    ensures id !in m ==> Finished(m[id := v]) == Finished(m) + multiset{Finish(v)}
    ensures id in m ==> Finished(m[id := v]) + multiset{Finish(m[id])} == Finished(m) + multiset{Finish(v)}
  {
    GatherPutsIn(m, id, v, FinishOne);
  }

  lemma FinishedSplits(m: map<Id, Live>, ids: set<Id>)
    requires ids <= m.Keys
    ensures Finished(m) == Finished(m - ids) + Finished(Only(m, ids))
  {
    GatherSplits(m, ids, FinishOne);
  }

  lemma EvictionSplits(cap: int, m: map<Id, Live>, m': map<Id, Live>)
    requires Evicts(cap, m, m')
    ensures Finished(m) == Finished(m - m'.Keys) + Finished(m')
    ensures |m - m'.Keys| == |m| - |m'|
  {
    FinishedSplits(m, m'.Keys);
    assert m.Keys == (m - m'.Keys).Keys + m'.Keys;
    assert |m| == |m.Keys| && |m'| == |m'.Keys| && |m - m'.Keys| == |(m - m'.Keys).Keys|;
  }

  lemma ViewKeepsRest(c: Config, s: State, id: Id, path: string, now: int, s': State)
    requires Continues(c.ttl, s.live, id, now) && Step(c, s, Touch(id, path, now), s')
    ensures Total(s') + multiset{Finish(s.live[id])} == Total(s) + multiset{Finish(Viewed(s.live[id], path, now))}
  {
    var x, y := multiset{Finish(s.live[id])}, multiset{Finish(Viewed(s.live[id], path, now))};
    FinishedPutsIn(s.live, id, Viewed(s.live[id], path, now));
    assert Total(s') + x == s.ended + (Finished(s'.live) + x);
    assert Total(s) + y == s.ended + (Finished(s.live) + y);
  }

  lemma OpeningAdds(c: Config, s: State, id: Id, path: string, now: int, s': State)
    requires !Continues(c.ttl, s.live, id, now) && Opens(c, s, id, path, now, s')
    ensures Total(s') == Total(s) + multiset{Finish(Opened(path, now))}
  {
    var m := Touched(c.ttl, s.live, id, path, now);
    FinishedPutsIn(s.live, id, Opened(path, now));
    EvictionSplits(c.cap, m, s'.live);
    OpeningTrades(
      s.ended, Closed(c.ttl, s.live, id, now), Finished(s.live), Finished(m), Finished(m - s'.live.Keys),
      Finished(s'.live), multiset{Finish(Opened(path, now))});
  }

  lemma OpeningTrades(
    ended: multiset<Ended>, closed: multiset<Ended>, live: multiset<Ended>, all: multiset<Ended>,
    evicted: multiset<Ended>, left: multiset<Ended>, one: multiset<Ended>)
    requires all + closed == live + one && all == evicted + left
    ensures ended + closed + evicted + left == ended + live + one
  {
    assert ended + closed + evicted + left == ended + (closed + (evicted + left));
    assert ended + live + one == ended + (live + one);
  }

  lemma ExtensionKeepsRest(c: Config, s: State, id: Id, now: int, s': State)
    requires Continues(c.ttl, s.live, id, now) && Step(c, s, Extend(id, now), s')
    ensures Total(s') + multiset{Finish(s.live[id])}
            == Total(s) + multiset{Finish(s.live[id].(lastSeen := now))}
  {
    var x, y := multiset{Finish(s.live[id])}, multiset{Finish(s.live[id].(lastSeen := now))};
    FinishedPutsIn(s.live, id, s.live[id].(lastSeen := now));
    assert Total(s') + x == s.ended + (Finished(s'.live) + x);
    assert Total(s) + y == s.ended + (Finished(s.live) + y);
  }

  /** A sweep only moves sessions from live to ended. */
  lemma SweepKeepsTotal(c: Config, s: State, now: int, s': State)
    requires Step(c, s, Sweep(now), s')
    ensures Total(s') == Total(s)
  {
    FinishedSplits(s.live, Stale(c.ttl, s.live, now));
  }

  /** After a sweep exactly the sessions are live that were seen less than `ttl`
      ago, untouched; the others are reported. */
  lemma SweepClosesExactlyTheStale(c: Config, s: State, now: int, s': State, id: Id)
    requires Step(c, s, Sweep(now), s')
    ensures id in s'.live <==> id in s.live && now - s.live[id].lastSeen < c.ttl
    ensures id in s'.live ==> s'.live[id] == s.live[id]
    ensures |s'.ended| - |s.ended| == |s.live| - |s'.live|
  {
    var stale := Stale(c.ttl, s.live, now);
    FinishedSize(Only(s.live, stale));
    TakingOutShrinks(s.live, stale);
  }

  lemma TakingOutShrinks(m: map<Id, Live>, ids: set<Id>)
    requires ids <= m.Keys
    ensures |Only(m, ids)| == |m| - |m - ids|
  {
    assert Only(m, ids).Keys == ids && (m - ids).Keys == m.Keys - ids;
    SplitSize(m.Keys, ids);
    KeysSize(m);
    KeysSize(m - ids);
    KeysSize(Only(m, ids));
  }

  lemma KeysSize(m: map<Id, Live>)
    ensures |m| == |m.Keys|
  {
  }

  lemma SplitSize(a: set<Id>, b: set<Id>)
    requires b <= a
    ensures |b| == |a| - |a - b|
  {
    assert a == (a - b) + b;
  }

  /** An eviction takes no more than is needed to get back to the cap, none of them
      seen later than any that stay, and leaves those alone. */
  lemma EvictsAsManyAsNeeded(cap: int, m: map<Id, Live>, m': map<Id, Live>)
    requires Evicts(cap, m, m')
    ensures |m| <= cap ==> m' == m
    ensures |m| > cap >= 0 ==> |m'| == cap
    ensures |m| > cap && cap < 0 ==> m' == map[]
    ensures forall gone, left :: gone in m && gone !in m' && left in m' ==> m[gone].lastSeen <= m[left].lastSeen
    ensures forall left :: left in m' ==> left in m && m'[left] == m[left]
  {
    if |m| <= cap {
      SubmapOfSameSize(m, m');
    }
  }

  // ---------------------------------------------------------------------
  // Conservation
  // ---------------------------------------------------------------------

  ghost function Views(ops: seq<Op>): nat {
    if ops == [] then 0
    else Views(ops[..|ops| - 1]) + if ops[|ops| - 1].Touch? then 1 else 0
  }

  ghost function PagesOf(e: Ended): nat {
    e.pages
  }

  ghost function EnteredAt(path: string): Ended -> nat {
    (e: Ended) => if e.entry == path then 1 else 0
  }

  /** Every page view and every started session is found once in `total`, the
      sessions under the path they were entered at. */
  ghost predicate Accounts(total: multiset<Ended>, started: multiset<string>, views: nat) {
    && Sum(total, PagesOf) == views
    && |started| == |total|
    && (forall p :: Sum(total, EnteredAt(p)) == started[p])
  }

  lemma AccountsForOneMore(total: multiset<Ended>, started: multiset<string>, views: nat, x: Ended)
    requires Accounts(total, started, views) && x.pages == 1
    ensures Accounts(total + multiset{x}, started + multiset{x.entry}, views + 1)
  {
    SumPutsIn(total, x, PagesOf);
    forall p
      ensures Sum(total + multiset{x}, EnteredAt(p)) == (started + multiset{x.entry})[p]
    {
      SumPutsIn(total, x, EnteredAt(p));
    }
  }

  lemma AccountsForReplaced(
    total: multiset<Ended>, total': multiset<Ended>, started: multiset<string>, views: nat, x: Ended, y: Ended)
    requires Accounts(total, started, views)
    requires total' + multiset{x} == total + multiset{y} && x.entry == y.entry && y.pages >= x.pages
    ensures Accounts(total', started, views + y.pages - x.pages)
  {
    SumPutsIn(total', x, PagesOf);
    SumPutsIn(total, y, PagesOf);
    assert |total'| + 1 == |total' + multiset{x}| == |total| + 1;
    forall p
      ensures Sum(total', EnteredAt(p)) == started[p]
    {
      SumPutsIn(total', x, EnteredAt(p));
      SumPutsIn(total, y, EnteredAt(p));
    }
  }

  lemma StepAccounts(c: Config, s: State, op: Op, s': State, views: nat)
    requires Step(c, s, op, s') && Accounts(Total(s), s.started, views)
    ensures Accounts(Total(s'), s'.started, views + if op.Touch? then 1 else 0)
  {
    match op
    case Touch(id, path, now) =>
      if Continues(c.ttl, s.live, id, now) {
        ViewKeepsRest(c, s, id, path, now, s');
        AccountsForReplaced(
          Total(s), Total(s'), s.started, views, Finish(s.live[id]), Finish(Viewed(s.live[id], path, now)));
      } else {
        OpeningAdds(c, s, id, path, now, s');
        AccountsForOneMore(Total(s), s.started, views, Finish(Opened(path, now)));
      }
    case Extend(id, now) =>
      if Continues(c.ttl, s.live, id, now) {
        ExtensionKeepsRest(c, s, id, now, s');
        AccountsForReplaced(
          Total(s), Total(s'), s.started, views, Finish(s.live[id]), Finish(s.live[id].(lastSeen := now)));
      }
    case Sweep(now) => SweepKeepsTotal(c, s, now, s');
  }

  /** Evicted sessions are among the ended ones, and the cap holds. */
  ghost predicate WithinCap(c: Config, s: State) {
    s.evicted <= |s.ended| && |s.live| <= Kept(c.cap, |s.live|)
  }

  lemma SameKeysSameSize(a: map<Id, Live>, b: map<Id, Live>)
    ensures a.Keys == b.Keys ==> |a| == |b|
    ensures a.Keys <= b.Keys ==> |a| <= |b|
  {
    assert |a| == |a.Keys| && |b| == |b.Keys|;
    if a.Keys <= b.Keys {
      assert b.Keys == a.Keys + (b.Keys - a.Keys);
    }
  }

  lemma StepStaysWithinCap(c: Config, s: State, op: Op, s': State)
    requires Step(c, s, op, s') && WithinCap(c, s)
    ensures WithinCap(c, s')
  {
    if op.Touch? && !Continues(c.ttl, s.live, op.id, op.now) {
      var m := Touched(c.ttl, s.live, op.id, op.path, op.now);
      EvictionSplits(c.cap, m, s'.live);
      FinishedSize(m - s'.live.Keys);
    } else {
      assert s'.live.Keys <= s.live.Keys;
      SameKeysSameSize(s'.live, s.live);
    }
  }

  lemma {:induction false} RunAccounts(c: Config, ss: seq<State>, ops: seq<Op>)
    requires IsRun(c, ss, ops)
    ensures Accounts(Total(ss[|ops|]), ss[|ops|].started, Views(ops))
    ensures WithinCap(c, ss[|ops|])
    decreases |ops|
  {
    if ops == [] {
      assert Total(ss[0]) == multiset{};
    } else {
      var k := |ops| - 1;
      RunAccounts(c, ss[..|ops|], ops[..k]);
      StepAccounts(c, ss[k], ops[k], ss[|ops|], Views(ops[..k]));
      StepStaysWithinCap(c, ss[k], ops[k], ss[|ops|]);
    }
  }

  /** On every run, whatever the times and evictions: sessions started are
      sessions ended plus sessions live, path by path for the entry paths; the
      page counts add up to the page views; evicted sessions are among the
      ended ones; and the cap holds after every call. */
  lemma SessionsAreConserved(c: Config, ss: seq<State>, ops: seq<Op>)
    requires IsRun(c, ss, ops)
    ensures var s := ss[|ops|];
            && |s.started| == |s.ended| + |s.live|
            && Sum(s.ended, PagesOf) + Sum(Finished(s.live), PagesOf) == Views(ops)
            && (forall p :: s.started[p] == Sum(s.ended, EnteredAt(p)) + Sum(Finished(s.live), EnteredAt(p)))
            && s.evicted <= |s.ended|
            && (c.cap >= 0 ==> |s.live| <= c.cap)
  {
    var s := ss[|ops|];
    RunAccounts(c, ss, ops);
    FinishedSize(s.live);
    SumAdds(s.ended, Finished(s.live), PagesOf);
    forall p
      ensures s.started[p] == Sum(s.ended, EnteredAt(p)) + Sum(Finished(s.live), EnteredAt(p))
    {
      SumAdds(s.ended, Finished(s.live), EnteredAt(p));
    }
  }
}
