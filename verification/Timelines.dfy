/** The sweep cannot be seen in the reports: on any run with a clock that does
    not go back and no capacity eviction, what is and will be reported is what
    an offline splitter makes of each visitor's timeline. */
module Timelines {
  import opened Bags
  import opened Sessions
  import opened SessionRuns

  /** What one visitor did. */
  datatype Event = View(path: string, at: int) | Ping(at: int)

  type Timeline = seq<Event>

  // ---------------------------------------------------------------------
  // The offline splitter
  // ---------------------------------------------------------------------

  function ViewsOf(t: Timeline): Timeline {
    if t == [] then []
    else ViewsOf(t[..|t| - 1]) + if t[|t| - 1].View? then [t[|t| - 1]] else []
  }

  lemma {:induction false} ViewsAreViews(t: Timeline)
    ensures forall v :: v in ViewsOf(t) ==> v.View?
  {
    if t != [] {
      ViewsAreViews(t[..|t| - 1]);
    }
  }

  /** Cuts a timeline wherever nothing happened for `ttl` or longer. */
  function Cut(ttl: int, t: Timeline): (segments: seq<Timeline>)
    ensures t == [] <==> segments == []
  {
    if t == [] then []
    else
      var k := |t| - 1;
      var before := Cut(ttl, t[..k]);
      if k > 0 && t[k].at - t[k - 1].at < ttl then before[..|before| - 1] + [before[|before| - 1] + [t[k]]]
      else before + [[t[k]]]
  }

  /** The session a segment amounts to: it opens at the first page view, so
      pings before that do not count, and lasts until the segment's last event. */
  function SessionOf(segment: Timeline): Live
    requires ViewsOf(segment) != []
  {
    ViewsAreViews(segment);
    var views := ViewsOf(segment);
    Live(views[0].at, segment[|segment| - 1].at, |views|, views[0].path, views[|views| - 1].path)
  }

  ghost function ReportOf(segment: Timeline): multiset<Ended> {
    if ViewsOf(segment) == [] then multiset{} else multiset{Finish(SessionOf(segment))}
  }

  ghost function ReportAll(segments: seq<Timeline>): multiset<Ended> {
    if segments == [] then multiset{}
    else ReportAll(segments[..|segments| - 1]) + ReportOf(segments[|segments| - 1])
  }

  /** What the splitter reports for one visitor. */
  ghost function Split(ttl: int): Timeline -> multiset<Ended> {
    (t: Timeline) => ReportAll(Cut(ttl, t))
  }

  function Timelines(ops: seq<Op>): map<Id, Timeline> {
    if ops == [] then map[]
    else
      var before := Timelines(ops[..|ops| - 1]);
      match ops[|ops| - 1]
      case Touch(id, path, now) => before[id := Of(before, id) + [View(path, now)]]
      case Extend(id, now) => before[id := Of(before, id) + [Ping(now)]]
      case Sweep(_) => before
  }

  function Of(ts: map<Id, Timeline>, id: Id): Timeline {
    if id in ts then ts[id] else []
  }

  /** What the splitter reports for all visitors. */
  ghost function Expected(ttl: int, ops: seq<Op>): multiset<Ended> {
    Gather(Timelines(ops), Split(ttl))
  }

  function PathOf(e: Event): string {
    if e.View? then e.path else ""
  }

  /** What is reported of a segment with a page view: it lasts from the first page
      view to the last event, has as many pages as page views, is entered at the
      first and left at the last one's path, and bounces if there is only one. */
  lemma ReportSays(segment: Timeline)
    ensures var views := ViewsOf(segment);
            ReportOf(segment)
            == if views == [] then multiset{}
               else multiset{Ended(
                 segment[|segment| - 1].at - views[0].at, |views|, PathOf(views[0]), PathOf(views[|views| - 1]),
                 |views| == 1)}
  {
    ViewsAreViews(segment);
  }

  ghost function Flat(segments: seq<Timeline>): Timeline {
    if segments == [] then [] else Flat(segments[..|segments| - 1]) + segments[|segments| - 1]
  }

  /** Nothing within a segment is `ttl` apart. */
  ghost predicate Dense(ttl: int, t: Timeline) {
    t != [] && forall i, j :: 0 <= i < j < |t| && j == i + 1 ==> t[j].at - t[i].at < ttl
  }

  /** Segments that follow each other are. */
  ghost predicate Gapped(ttl: int, segments: seq<Timeline>) {
    && (forall i :: 0 <= i < |segments| ==> Dense(ttl, segments[i]))
    && (forall i, j :: 0 <= i < j < |segments| && j == i + 1 ==>
          && segments[i] != [] && segments[j] != []
          && segments[j][0].at - segments[i][|segments[i]| - 1].at >= ttl)
  }

  lemma FlatLastLonger(front: seq<Timeline>, last: Timeline, e: Event)
    ensures Flat(front + [last + [e]]) == Flat(front + [last]) + [e]
    ensures Flat(front + [[e]]) == Flat(front) + [e]
  {
    assert (front + [last + [e]])[..|front|] == front;
    assert (front + [last])[..|front|] == front;
    assert (front + [[e]])[..|front|] == front;
    assert Flat(front) + (last + [e]) == Flat(front) + last + [e];
  }

  lemma DenseLonger(ttl: int, t: Timeline, e: Event)
    requires Dense(ttl, t) && e.at - t[|t| - 1].at < ttl
    ensures Dense(ttl, t + [e])
  {
  }

  lemma GappedLastLonger(ttl: int, front: seq<Timeline>, last: Timeline, e: Event)
    requires Gapped(ttl, front + [last]) && last != [] && e.at - last[|last| - 1].at < ttl
    ensures Gapped(ttl, front + [last + [e]])
  {
    var segments, longer := front + [last], front + [last + [e]];
    assert segments[|front|] == last && longer[|front|] == last + [e];
    DenseLonger(ttl, last, e);
    assert forall i :: 0 <= i < |front| ==> longer[i] == segments[i];
  }

  lemma GappedOneMore(ttl: int, segments: seq<Timeline>, e: Event)
    requires Gapped(ttl, segments)
    requires segments != [] ==>
               var last := segments[|segments| - 1]; Dense(ttl, last) && e.at - last[|last| - 1].at >= ttl
    ensures Gapped(ttl, segments + [[e]])
  {
    var more := segments + [[e]];
    assert more[|segments|] == [e] && Dense(ttl, [e]);
    assert forall i :: 0 <= i < |segments| ==> more[i] == segments[i];
  }

  /** The segments are the timeline `t`, cut exactly where nothing happened for
      `ttl` or longer. */
  ghost predicate IsCut(ttl: int, t: Timeline, segments: seq<Timeline>) {
    && Flat(segments) == t && Gapped(ttl, segments)
    && (t == [] <==> segments == [])
    && (t != [] ==>
          var last := segments[|segments| - 1];
          last != [] && last[|last| - 1] == t[|t| - 1])
  }

  lemma CutWithin(ttl: int, t: Timeline, segments: seq<Timeline>, e: Event)
    requires IsCut(ttl, t, segments) && t != [] && e.at - t[|t| - 1].at < ttl
    ensures var k := |segments| - 1; IsCut(ttl, t + [e], segments[..k] + [segments[k] + [e]])
  {
    var front, last := segments[..|segments| - 1], segments[|segments| - 1];
    assert segments == front + [last];
    FlatLastLonger(front, last, e);
    GappedLastLonger(ttl, front, last, e);
  }

  lemma CutBetween(ttl: int, t: Timeline, segments: seq<Timeline>, e: Event)
    requires IsCut(ttl, t, segments) && (t != [] ==> e.at - t[|t| - 1].at >= ttl)
    ensures IsCut(ttl, t + [e], segments + [[e]])
  {
    FlatLastLonger(segments, [], e);
    if segments != [] {
      assert Dense(ttl, segments[|segments| - 1]);
    }
    GappedOneMore(ttl, segments, e);
  }

  lemma LastEvent(t: Timeline)
    requires t != []
    ensures t == t[..|t| - 1] + [t[|t| - 1]]
  {
  }

  /** That is what the splitter does. */
  lemma {:induction false} CutsAtGaps(ttl: int, t: Timeline)
    ensures IsCut(ttl, t, Cut(ttl, t))
  {
    if t != [] {
      var k := |t| - 1;
      CutsAtGaps(ttl, t[..k]);
      LastEvent(t);
      if k > 0 && t[k].at - t[k - 1].at < ttl {
        CutWithin(ttl, t[..k], Cut(ttl, t[..k]), t[k]);
      } else {
        CutBetween(ttl, t[..k], Cut(ttl, t[..k]), t[k]);
      }
    }
  }

  // ---------------------------------------------------------------------
  // One more event
  // ---------------------------------------------------------------------

  ghost function LastSegment(ttl: int, t: Timeline): Timeline {
    if t == [] then [] else Cut(ttl, t)[|Cut(ttl, t)| - 1]
  }

  /** Whether the splitter has a session open that an event at `now` continues. */
  ghost predicate OpenAt(ttl: int, t: Timeline, now: int) {
    t != [] && now - t[|t| - 1].at < ttl && ViewsOf(LastSegment(ttl, t)) != []
  }

  lemma ViewsOneMore(t: Timeline, e: Event)
    ensures ViewsOf(t + [e]) == ViewsOf(t) + if e.View? then [e] else []
  {
    assert (t + [e])[..|t|] == t;
  }

  lemma ReportAllOneMore(segments: seq<Timeline>, s: Timeline)
    ensures ReportAll(segments + [s]) == ReportAll(segments) + ReportOf(s)
  {
    assert (segments + [s])[..|segments|] == segments;
  }

  lemma CutWithinSegment(ttl: int, t: Timeline, e: Event)
    requires t != [] && e.at - t[|t| - 1].at < ttl
    ensures LastSegment(ttl, t + [e]) == LastSegment(ttl, t) + [e]
    ensures Split(ttl)(t + [e]) + ReportOf(LastSegment(ttl, t))
            == Split(ttl)(t) + ReportOf(LastSegment(ttl, t) + [e])
  {
    assert (t + [e])[..|t|] == t;
    var segments := Cut(ttl, t);
    var front, last := segments[..|segments| - 1], segments[|segments| - 1];
    assert segments == front + [last];
    assert Cut(ttl, t + [e]) == front + [last + [e]];
    ReportAllOneMore(front, last);
    ReportAllOneMore(front, last + [e]);
    var r := ReportAll(front);
    assert r + ReportOf(last + [e]) + ReportOf(last) == r + ReportOf(last) + ReportOf(last + [e]);
  }

  lemma CutNewSegment(ttl: int, t: Timeline, e: Event)
    requires t == [] || e.at - t[|t| - 1].at >= ttl
    ensures LastSegment(ttl, t + [e]) == [e]
    ensures Split(ttl)(t + [e]) == Split(ttl)(t) + ReportOf([e])
  {
    assert (t + [e])[..|t|] == t;
    assert Cut(ttl, t + [e]) == Cut(ttl, t) + [[e]];
    ReportAllOneMore(Cut(ttl, t), [e]);
  }

  /** How one more event changes a segment's session. */
  lemma SegmentOneMore(t: Timeline, e: Event)
    ensures ViewsOf(t + [e]) != [] <==> ViewsOf(t) != [] || e.View?
    ensures ViewsOf(t) != [] ==>
              SessionOf(t + [e])
              == if e.View? then Viewed(SessionOf(t), e.path, e.at) else SessionOf(t).(lastSeen := e.at)
    ensures ViewsOf(t) == [] && e.View? ==> SessionOf(t + [e]) == Opened(e.path, e.at)
  {
    ViewsOneMore(t, e);
    ViewsAreViews(t);
    ViewsAreViews(t + [e]);
  }

  lemma ContinuedSplit(ttl: int, t: Timeline, e: Event)
    requires OpenAt(ttl, t, e.at)
    ensures ViewsOf(LastSegment(ttl, t + [e])) != []
    ensures var s := SessionOf(LastSegment(ttl, t));
            var s' := if e.View? then Viewed(s, e.path, e.at) else s.(lastSeen := e.at);
            && SessionOf(LastSegment(ttl, t + [e])) == s'
            && Split(ttl)(t + [e]) + multiset{Finish(s)} == Split(ttl)(t) + multiset{Finish(s')}
  {
    CutWithinSegment(ttl, t, e);
    SegmentOneMore(LastSegment(ttl, t), e);
  }

  lemma OpenedSplit(ttl: int, t: Timeline, e: Event)
    requires !OpenAt(ttl, t, e.at) && e.View?
    ensures ViewsOf(LastSegment(ttl, t + [e])) != []
    ensures SessionOf(LastSegment(ttl, t + [e])) == Opened(e.path, e.at)
    ensures Split(ttl)(t + [e]) == Split(ttl)(t) + multiset{Finish(Opened(e.path, e.at))}
  {
    if t != [] && e.at - t[|t| - 1].at < ttl {
      CutWithinSegment(ttl, t, e);
      SegmentOneMore(LastSegment(ttl, t), e);
    } else {
      CutNewSegment(ttl, t, e);
      assert [] + [e] == [e];
      SegmentOneMore([], e);
    }
  }

  lemma IgnoredWithinSegment(ttl: int, t: Timeline, e: Event)
    requires t != [] && e.at - t[|t| - 1].at < ttl
    requires ViewsOf(LastSegment(ttl, t)) == [] && e.Ping?
    ensures ViewsOf(LastSegment(ttl, t + [e])) == []
    ensures Split(ttl)(t + [e]) == Split(ttl)(t)
  {
    var last := LastSegment(ttl, t);
    SegmentOneMore(last, e);
    CutWithinSegment(ttl, t, e);
    Cancel(Split(ttl)(t + [e]), Split(ttl)(t), ReportOf(last));
  }

  lemma IgnoredNewSegment(ttl: int, t: Timeline, e: Event)
    requires t == [] || e.at - t[|t| - 1].at >= ttl
    requires e.Ping?
    ensures ViewsOf(LastSegment(ttl, t + [e])) == []
    ensures Split(ttl)(t + [e]) == Split(ttl)(t)
  {
    CutNewSegment(ttl, t, e);
    assert [] + [e] == [e];
    SegmentOneMore([], e);
  }

  lemma UnchangedSplit(ttl: int, t: Timeline, e: Event)
    requires !OpenAt(ttl, t, e.at) && e.Ping?
    ensures ViewsOf(LastSegment(ttl, t + [e])) == []
    ensures Split(ttl)(t + [e]) == Split(ttl)(t)
  {
    if t != [] && e.at - t[|t| - 1].at < ttl {
      IgnoredWithinSegment(ttl, t, e);
    } else {
      IgnoredNewSegment(ttl, t, e);
    }
  }

  // ---------------------------------------------------------------------
  // The tracker follows the splitter
  // ---------------------------------------------------------------------

  /** The clock does not go back. */
  ghost predicate InOrder(ops: seq<Op>) {
    |ops| > 1 ==> InOrder(ops[..|ops| - 1]) && ops[|ops| - 2].now <= ops[|ops| - 1].now
  }

  /** The tracker's view of one visitor at time `now`: it holds the splitter's
      open session, or something too old to matter, or nothing. */
  ghost predicate Follows(ttl: int, live: map<Id, Live>, id: Id, t: Timeline, now: int) {
    var last := LastSegment(ttl, t);
    && (t != [] ==> t[|t| - 1].at <= now)
    && (id in live ==> t != [])
    && (id in live && ViewsOf(last) != [] ==> live[id] == SessionOf(last))
    && (id in live && ViewsOf(last) == [] ==> now - live[id].lastSeen >= ttl)
    && (id !in live && ViewsOf(last) != [] ==> now - t[|t| - 1].at >= ttl)
  }

  lemma SessionEndsWithTheTimeline(ttl: int, t: Timeline)
    requires t != [] && ViewsOf(LastSegment(ttl, t)) != []
    ensures SessionOf(LastSegment(ttl, t)).lastSeen == t[|t| - 1].at
  {
  }

  /** The tracker continues a session exactly when the splitter does. */
  lemma SameDecision(ttl: int, live: map<Id, Live>, id: Id, t: Timeline, now: int, later: int)
    requires Follows(ttl, live, id, t, now) && now <= later
    ensures Continues(ttl, live, id, later) <==> OpenAt(ttl, t, later)
    ensures Continues(ttl, live, id, later) ==> live[id] == SessionOf(LastSegment(ttl, t))
  {
    if t != [] && ViewsOf(LastSegment(ttl, t)) != [] {
      SessionEndsWithTheTimeline(ttl, t);
    }
  }

  ghost predicate FollowsAll(ttl: int, live: map<Id, Live>, ts: map<Id, Timeline>, now: int) {
    forall id :: Follows(ttl, live, id, Of(ts, id), now)
  }

  lemma TouchFollows(ttl: int, live: map<Id, Live>, id: Id, t: Timeline, path: string, now: int, later: int)
    requires Follows(ttl, live, id, t, now) && now <= later
    ensures Follows(ttl, Touched(ttl, live, id, path, later), id, t + [View(path, later)], later)
  {
    SameDecision(ttl, live, id, t, now, later);
    if OpenAt(ttl, t, later) {
      ContinuedSplit(ttl, t, View(path, later));
    } else {
      OpenedSplit(ttl, t, View(path, later));
    }
  }

  lemma ExtendFollows(ttl: int, live: map<Id, Live>, id: Id, t: Timeline, now: int, later: int)
    requires Follows(ttl, live, id, t, now) && now <= later
    ensures id in live ==> Follows(ttl, Extended(ttl, live, id, later), id, t + [Ping(later)], later)
    ensures id !in live ==> Follows(ttl, live, id, t + [Ping(later)], later)
  {
    SameDecision(ttl, live, id, t, now, later);
    if OpenAt(ttl, t, later) {
      ContinuedSplit(ttl, t, Ping(later));
    } else {
      UnchangedSplit(ttl, t, Ping(later));
    }
  }

  lemma SweepFollows(ttl: int, live: map<Id, Live>, id: Id, t: Timeline, now: int, later: int)
    requires Follows(ttl, live, id, t, now) && now <= later
    ensures Follows(ttl, live - Stale(ttl, live, later), id, t, later)
  {
    if t != [] && ViewsOf(LastSegment(ttl, t)) != [] {
      SessionEndsWithTheTimeline(ttl, t);
    }
  }

  lemma TimeFollows(ttl: int, live: map<Id, Live>, live': map<Id, Live>, id: Id, t: Timeline, now: int, later: int)
    requires Follows(ttl, live, id, t, now) && now <= later
    requires id in live <==> id in live'
    requires id in live ==> live[id] == live'[id]
    ensures Follows(ttl, live', id, t, later)
  {
  }

  // ---------------------------------------------------------------------
  // Whole runs
  // ---------------------------------------------------------------------

  /** Without an eviction a page view does no more than the view itself. */
  lemma WithoutEviction(c: Config, s: State, id: Id, path: string, now: int, s': State)
    requires Step(c, s, Touch(id, path, now), s') && s'.evicted == s.evicted
    ensures s'.live == Touched(c.ttl, s.live, id, path, now)
  {
    if !Continues(c.ttl, s.live, id, now) {
      SubmapOfSameSize(Touched(c.ttl, s.live, id, path, now), s'.live);
    }
  }

  lemma EvictionsOnlyGrow(c: Config, s: State, op: Op, s': State)
    requires Step(c, s, op, s')
    ensures s.evicted <= s'.evicted
  {
  }

  ghost function EventOf(op: Op): Event
    requires !op.Sweep?
  {
    if op.Touch? then View(op.path, op.now) else Ping(op.now)
  }

  lemma TimelinesOneMore(ops: seq<Op>, op: Op)
    ensures Timelines(ops + [op])
            == if op.Sweep? then Timelines(ops)
               else Timelines(ops)[op.id := Of(Timelines(ops), op.id) + [EventOf(op)]]
  {
    assert (ops + [op])[..|ops|] == ops;
  }

  /** Lengthening one visitor's timeline changes only that visitor's share. */
  lemma OneTimelineChanges(ts: map<Id, Timeline>, id: Id, t: Timeline, ttl: int)
    ensures Gather(ts[id := t], Split(ttl)) + Split(ttl)(Of(ts, id)) == Gather(ts, Split(ttl)) + Split(ttl)(t)
  {
    GatherPutsIn(ts, id, t, Split(ttl));
    if id !in ts {
      assert Split(ttl)([]) == multiset{};
    }
  }

  lemma ExpectedOneMore(ttl: int, ops: seq<Op>, op: Op)
    requires !op.Sweep?
    ensures var t := Of(Timelines(ops), op.id);
            Expected(ttl, ops + [op]) + Split(ttl)(t) == Expected(ttl, ops) + Split(ttl)(t + [EventOf(op)])
  {
    TimelinesOneMore(ops, op);
    OneTimelineChanges(Timelines(ops), op.id, Of(Timelines(ops), op.id) + [EventOf(op)], ttl);
  }

  /** If splitter and tracker both trade `x` for `y`, they stay equal. */
  lemma TradeAlike(
    total: multiset<Ended>, total': multiset<Ended>, expected': multiset<Ended>,
    x: multiset<Ended>, y: multiset<Ended>, was: multiset<Ended>, now_: multiset<Ended>)
    requires total' + x == total + y
    requires expected' + was == total + now_ && now_ + x == was + y
    ensures total' == expected'
  {
    assert expected' + x + was == expected' + was + x == total + now_ + x == total + (now_ + x);
    assert total + (was + y) == total + y + was == total' + x + was;
    Cancel(expected' + x, total' + x, was);
    Cancel(expected', total', x);
  }

  lemma TouchMatches(c: Config, s: State, ops: seq<Op>, op: Op, s': State, now: int)
    requires op.Touch? && Step(c, s, op, s') && now <= op.now
    requires Total(s) == Expected(c.ttl, ops) && FollowsAll(c.ttl, s.live, Timelines(ops), now)
    ensures Total(s') == Expected(c.ttl, ops + [op])
  {
    var t, e := Of(Timelines(ops), op.id), EventOf(op);
    assert Follows(c.ttl, s.live, op.id, t, now);
    SameDecision(c.ttl, s.live, op.id, t, now, op.now);
    ExpectedOneMore(c.ttl, ops, op);
    if Continues(c.ttl, s.live, op.id, op.now) {
      ContinuedSplit(c.ttl, t, e);
      ViewKeepsRest(c, s, op.id, op.path, op.now, s');
      TradeAlike(
        Total(s), Total(s'), Expected(c.ttl, ops + [op]),
        multiset{Finish(s.live[op.id])}, multiset{Finish(Viewed(s.live[op.id], op.path, op.now))},
        Split(c.ttl)(t), Split(c.ttl)(t + [e]));
    } else {
      OpenedSplit(c.ttl, t, e);
      OpeningAdds(c, s, op.id, op.path, op.now, s');
      TradeAlike(
        Total(s), Total(s'), Expected(c.ttl, ops + [op]),
        multiset{}, multiset{Finish(Opened(op.path, op.now))},
        Split(c.ttl)(t), Split(c.ttl)(t + [e]));
    }
  }

  lemma ExtendMatches(c: Config, s: State, ops: seq<Op>, op: Op, s': State, now: int)
    requires op.Extend? && Step(c, s, op, s') && now <= op.now
    requires Total(s) == Expected(c.ttl, ops) && FollowsAll(c.ttl, s.live, Timelines(ops), now)
    ensures Total(s') == Expected(c.ttl, ops + [op])
  {
    var t, e := Of(Timelines(ops), op.id), EventOf(op);
    assert Follows(c.ttl, s.live, op.id, t, now);
    SameDecision(c.ttl, s.live, op.id, t, now, op.now);
    ExpectedOneMore(c.ttl, ops, op);
    if Continues(c.ttl, s.live, op.id, op.now) {
      ContinuedSplit(c.ttl, t, e);
      ExtensionKeepsRest(c, s, op.id, op.now, s');
      TradeAlike(
        Total(s), Total(s'), Expected(c.ttl, ops + [op]),
        multiset{Finish(s.live[op.id])}, multiset{Finish(s.live[op.id].(lastSeen := op.now))},
        Split(c.ttl)(t), Split(c.ttl)(t + [e]));
    } else {
      UnchangedSplit(c.ttl, t, e);
      TradeAlike(
        Total(s), Total(s'), Expected(c.ttl, ops + [op]),
        multiset{}, multiset{}, Split(c.ttl)(t), Split(c.ttl)(t + [e]));
    }
  }

  lemma StepFollows(c: Config, s: State, ops: seq<Op>, op: Op, s': State, now: int)
    requires Step(c, s, op, s') && s'.evicted == s.evicted && now <= op.now
    requires FollowsAll(c.ttl, s.live, Timelines(ops), now)
    ensures FollowsAll(c.ttl, s'.live, Timelines(ops + [op]), op.now)
  {
    var ts, ts' := Timelines(ops), Timelines(ops + [op]);
    TimelinesOneMore(ops, op);
    if op.Touch? {
      WithoutEviction(c, s, op.id, op.path, op.now, s');
    }
    forall id
      ensures Follows(c.ttl, s'.live, id, Of(ts', id), op.now)
    {
      var t := Of(ts, id);
      assert Follows(c.ttl, s.live, id, t, now);
      match op
      case Touch(who, path, later) =>
        if id == who {
          TouchFollows(c.ttl, s.live, id, t, path, now, later);
        } else {
          TimeFollows(c.ttl, s.live, s'.live, id, t, now, later);
        }
      case Extend(who, later) =>
        if id == who {
          ExtendFollows(c.ttl, s.live, id, t, now, later);
        } else {
          TimeFollows(c.ttl, s.live, s'.live, id, t, now, later);
        }
      case Sweep(later) => SweepFollows(c.ttl, s.live, id, t, now, later);
    }
  }

  ghost function LastTime(ops: seq<Op>, first: int): int {
    if ops == [] then first else ops[|ops| - 1].now
  }

  lemma StepMatches(c: Config, s: State, ops: seq<Op>, op: Op, s': State, now: int)
    requires Step(c, s, op, s') && now <= op.now
    requires Total(s) == Expected(c.ttl, ops) && FollowsAll(c.ttl, s.live, Timelines(ops), now)
    ensures Total(s') == Expected(c.ttl, ops + [op])
  {
    match op
    case Touch(_, _, _) => TouchMatches(c, s, ops, op, s', now);
    case Extend(_, _) => ExtendMatches(c, s, ops, op, s', now);
    case Sweep(later) =>
      SweepKeepsTotal(c, s, later, s');
      TimelinesOneMore(ops, op);
  }

  ghost predicate Matches(c: Config, s: State, ops: seq<Op>, now: int) {
    && Total(s) == Expected(c.ttl, ops)
    && FollowsAll(c.ttl, s.live, Timelines(ops), now)
  }

  lemma StepKeepsMatching(c: Config, s: State, ops: seq<Op>, op: Op, s': State, now: int)
    requires Step(c, s, op, s') && s'.evicted == s.evicted && now <= op.now
    requires Matches(c, s, ops, now)
    ensures Matches(c, s', ops + [op], op.now)
  {
    StepFollows(c, s, ops, op, s', now);
    StepMatches(c, s, ops, op, s', now);
  }

  lemma {:induction false} RunMatches(c: Config, ss: seq<State>, ops: seq<Op>, first: int)
    requires IsRun(c, ss, ops) && InOrder(ops) && ss[|ops|].evicted == 0
    requires ops != [] ==> first <= ops[0].now
    ensures Matches(c, ss[|ops|], ops, LastTime(ops, first))
    decreases |ops|
  {
    if ops != [] {
      var k := |ops| - 1;
      var before, op := ops[..k], ops[k];
      SplitLast(ops);
      NoEvictionYet(c, ss, ops);
      RunMatches(c, ss[..|ops|], before, first);
      StepKeepsMatching(c, ss[k], before, op, ss[|ops|], LastTime(before, first));
    }
  }

  lemma SplitLast(ops: seq<Op>)
    requires ops != []
    ensures ops == ops[..|ops| - 1] + [ops[|ops| - 1]]
  {
  }

  lemma NoEvictionYet(c: Config, ss: seq<State>, ops: seq<Op>)
    requires IsRun(c, ss, ops) && InOrder(ops) && ss[|ops|].evicted == 0 && ops != []
    ensures IsRun(c, ss[..|ops|], ops[..|ops| - 1]) && InOrder(ops[..|ops| - 1])
    ensures ss[|ops| - 1].evicted == 0
    ensures Step(c, ss[|ops| - 1], ops[|ops| - 1], ss[|ops|])
  {
    EvictionsOnlyGrow(c, ss[|ops| - 1], ops[|ops| - 1], ss[|ops|]);
  }

  /** What is and will be reported is what the offline splitter reports. */
  lemma ReportsAreTheSplit(c: Config, ss: seq<State>, ops: seq<Op>)
    requires IsRun(c, ss, ops) && InOrder(ops) && ss[|ops|].evicted == 0
    ensures ss[|ops|].ended + Finished(ss[|ops|].live) == Expected(c.ttl, ops)
  {
    RunMatches(c, ss, ops, if ops == [] then 0 else ops[0].now);
  }

  function WithoutSweeps(ops: seq<Op>): seq<Op> {
    if ops == [] then []
    else WithoutSweeps(ops[..|ops| - 1]) + if ops[|ops| - 1].Sweep? then [] else [ops[|ops| - 1]]
  }

  lemma {:induction false} TimelinesIgnoreSweeps(ops: seq<Op>)
    ensures Timelines(WithoutSweeps(ops)) == Timelines(ops)
  {
    if ops != [] {
      var before, op := ops[..|ops| - 1], ops[|ops| - 1];
      TimelinesIgnoreSweeps(before);
      if op.Sweep? {
        assert WithoutSweeps(ops) == WithoutSweeps(before);
      } else {
        TimelinesOneMore(WithoutSweeps(before), op);
      }
    }
  }

  // ---------------------------------------------------------------------
  // Sweeping evicts nothing
  // ---------------------------------------------------------------------

  /** `swept` lacks only sessions of `kept` that are stale by now. */
  ghost predicate SameButStale(ttl: int, swept: map<Id, Live>, kept: map<Id, Live>, now: int) {
    && (forall id :: id in swept ==> id in kept && swept[id] == kept[id])
    && (forall id :: id in kept && id !in swept ==> now - kept[id].lastSeen >= ttl)
  }

  lemma StaleOrAlike(ttl: int, swept: map<Id, Live>, kept: map<Id, Live>, id: Id, now: int, later: int)
    requires SameButStale(ttl, swept, kept, now) && now <= later
    ensures SameButStale(ttl, swept, kept, later)
    ensures Continues(ttl, swept, id, later) <==> Continues(ttl, kept, id, later)
  {
  }

  lemma TouchStaysAlike(ttl: int, swept: map<Id, Live>, kept: map<Id, Live>, id: Id, path: string, now: int)
    requires SameButStale(ttl, swept, kept, now)
    ensures SameButStale(ttl, Touched(ttl, swept, id, path, now), Touched(ttl, kept, id, path, now), now)
  {
    StaleOrAlike(ttl, swept, kept, id, now, now);
  }

  /** Where the fuller map needs no eviction, the emptier one needs none. */
  lemma FewerNeedNoEviction(c: Config, s: State, s0: State, id: Id, path: string, now: int, s': State, s0': State)
    requires SameButStale(c.ttl, s.live, s0.live, now)
    requires Step(c, s, Touch(id, path, now), s') && Step(c, s0, Touch(id, path, now), s0')
    requires s0'.evicted == s0.evicted
    ensures s'.evicted == s.evicted
    ensures SameButStale(c.ttl, s'.live, s0'.live, now)
  {
    StaleOrAlike(c.ttl, s.live, s0.live, id, now, now);
    TouchStaysAlike(c.ttl, s.live, s0.live, id, path, now);
    WithoutEviction(c, s0, id, path, now, s0');
    SameKeysSameSize(Touched(c.ttl, s.live, id, path, now), Touched(c.ttl, s0.live, id, path, now));
    WithoutEviction(c, s, id, path, now, s');
  }

  lemma SweepStaysAlike(ttl: int, swept: map<Id, Live>, kept: map<Id, Live>, now: int)
    requires SameButStale(ttl, swept, kept, now)
    ensures SameButStale(ttl, swept - Stale(ttl, swept, now), kept, now)
  {
  }

  lemma WithoutSweepsOneMore(ops: seq<Op>)
    requires ops != []
    ensures var before, op := ops[..|ops| - 1], ops[|ops| - 1];
            && (op.Sweep? ==> WithoutSweeps(ops) == WithoutSweeps(before))
            && (!op.Sweep? ==>
                  && WithoutSweeps(ops) != []
                  && WithoutSweeps(ops)[..|WithoutSweeps(ops)| - 1] == WithoutSweeps(before)
                  && WithoutSweeps(ops)[|WithoutSweeps(ops)| - 1] == op)
  {
  }

  ghost predicate Alike(c: Config, s: State, s0: State, now: int) {
    s.evicted == 0 && SameButStale(c.ttl, s.live, s0.live, now)
  }

  lemma StepStaysAlike(c: Config, s: State, s0: State, op: Op, s': State, s0': State, now: int)
    requires Alike(c, s, s0, now) && now <= op.now && !op.Sweep?
    requires Step(c, s, op, s') && Step(c, s0, op, s0') && s0'.evicted == s0.evicted
    ensures Alike(c, s', s0', op.now)
  {
    StaleOrAlike(c.ttl, s.live, s0.live, op.id, now, op.now);
    if op.Touch? {
      FewerNeedNoEviction(c, s, s0, op.id, op.path, op.now, s', s0');
    }
  }

  lemma SweepStepStaysAlike(c: Config, s: State, s0: State, op: Op, s': State, now: int)
    requires Alike(c, s, s0, now) && now <= op.now && op.Sweep? && Step(c, s, op, s')
    ensures Alike(c, s', s0, op.now)
  {
    StaleOrAlike(c.ttl, s.live, s0.live, 0, now, op.now);
    SweepStaysAlike(c.ttl, s.live, s0.live, op.now);
  }

  lemma OrderGoesOn(ops: seq<Op>, first: int)
    requires InOrder(ops) && ops != [] && first <= ops[0].now
    ensures var before := ops[..|ops| - 1];
            && InOrder(before) && (before != [] ==> first <= before[0].now)
            && LastTime(before, first) <= ops[|ops| - 1].now
  {
  }

  /** A run evicts nothing if the same run without its sweeps evicts nothing. */
  lemma {:induction false} SweptRunIsAlike(c: Config, ss: seq<State>, ops: seq<Op>, ss0: seq<State>, first: int)
    requires IsRun(c, ss, ops) && InOrder(ops)
    requires IsRun(c, ss0, WithoutSweeps(ops)) && ss0[|WithoutSweeps(ops)|].evicted == 0
    requires ops != [] ==> first <= ops[0].now
    ensures Alike(c, ss[|ops|], ss0[|WithoutSweeps(ops)|], LastTime(ops, first))
    decreases |ops|, 1
  {
    if ops != [] {
      OrderGoesOn(ops, first);
      RunGoesOn(c, ss, ops);
      if ops[|ops| - 1].Sweep? {
        AlikeAfterSweep(c, ss, ops, ss0, first);
      } else {
        AlikeAfterCall(c, ss, ops, ss0, first);
      }
    }
  }

  lemma AlikeAfterSweep(c: Config, ss: seq<State>, ops: seq<Op>, ss0: seq<State>, first: int)
    requires |ss| == |ops| + 1 && ops != [] && ops[|ops| - 1].Sweep?
    requires var k := |ops| - 1;
             && IsRun(c, ss[..|ops|], ops[..k]) && Step(c, ss[k], ops[k], ss[|ops|])
             && InOrder(ops[..k]) && LastTime(ops[..k], first) <= ops[k].now
             && (ops[..k] != [] ==> first <= ops[0].now)
    requires IsRun(c, ss0, WithoutSweeps(ops)) && ss0[|WithoutSweeps(ops)|].evicted == 0
    ensures Alike(c, ss[|ops|], ss0[|WithoutSweeps(ops)|], ops[|ops| - 1].now)
    decreases |ops|, 0
  {
    var k, ops0 := |ops| - 1, WithoutSweeps(ops);
    WithoutSweepsOneMore(ops);
    SweptRunIsAlike(c, ss[..|ops|], ops[..k], ss0, first);
    assert ss[..|ops|][k] == ss[k];
    SweepStepStaysAlike(c, ss[k], ss0[|ops0|], ops[k], ss[|ops|], LastTime(ops[..k], first));
  }

  lemma AlikeAfterCall(c: Config, ss: seq<State>, ops: seq<Op>, ss0: seq<State>, first: int)
    requires |ss| == |ops| + 1 && ops != [] && !ops[|ops| - 1].Sweep?
    requires var k := |ops| - 1;
             && IsRun(c, ss[..|ops|], ops[..k]) && Step(c, ss[k], ops[k], ss[|ops|])
             && InOrder(ops[..k]) && LastTime(ops[..k], first) <= ops[k].now
             && (ops[..k] != [] ==> first <= ops[0].now)
    requires IsRun(c, ss0, WithoutSweeps(ops)) && ss0[|WithoutSweeps(ops)|].evicted == 0
    ensures Alike(c, ss[|ops|], ss0[|WithoutSweeps(ops)|], ops[|ops| - 1].now)
    decreases |ops|, 0
  {
    var k, ops0 := |ops| - 1, WithoutSweeps(ops);
    WithoutSweepsOneMore(ops);
    KeptRunGoesOn(c, ss0, ops0);
    SweptRunIsAlike(c, ss[..|ops|], ops[..k], ss0[..|ops0|], first);
    assert ss[..|ops|][k] == ss[k] && ss0[..|ops0|][|ops0| - 1] == ss0[|ops0| - 1];
    StepStaysAlike(c, ss[k], ss0[|ops0| - 1], ops[k], ss[|ops|], ss0[|ops0|], LastTime(ops[..k], first));
  }

  lemma KeptRunGoesOn(c: Config, ss: seq<State>, ops: seq<Op>)
    requires IsRun(c, ss, ops) && ops != [] && ss[|ops|].evicted == 0
    ensures IsRun(c, ss[..|ops|], ops[..|ops| - 1]) && ss[|ops| - 1].evicted == 0
    ensures Step(c, ss[|ops| - 1], ops[|ops| - 1], ss[|ops|])
  {
    RunGoesOn(c, ss, ops);
    EvictionsOnlyGrow(c, ss[|ops| - 1], ops[|ops| - 1], ss[|ops|]);
  }

  lemma RunGoesOn(c: Config, ss: seq<State>, ops: seq<Op>)
    requires IsRun(c, ss, ops) && ops != []
    ensures IsRun(c, ss[..|ops|], ops[..|ops| - 1])
    ensures Step(c, ss[|ops| - 1], ops[|ops| - 1], ss[|ops|])
  {
  }

  lemma {:induction false} WithoutSweepsInOrder(ops: seq<Op>, first: int)
    requires InOrder(ops) && (ops != [] ==> first <= ops[0].now)
    ensures InOrder(WithoutSweeps(ops))
    ensures LastTime(WithoutSweeps(ops), first) <= LastTime(ops, first)
  {
    if ops != [] {
      WithoutSweepsOneMore(ops);
      WithoutSweepsInOrder(ops[..|ops| - 1], first);
    }
  }

  /** Sweeps cannot be seen: if a run without sweeps evicts nothing, then with
      sweeps put in anywhere it evicts nothing either and ends up reporting
      the same. */
  lemma SweepsAreInvisible(c: Config, ss: seq<State>, ops: seq<Op>, ss0: seq<State>)
    requires IsRun(c, ss, ops) && InOrder(ops)
    requires IsRun(c, ss0, WithoutSweeps(ops)) && ss0[|WithoutSweeps(ops)|].evicted == 0
    ensures ss[|ops|].evicted == 0
    ensures Total(ss[|ops|]) == Total(ss0[|WithoutSweeps(ops)|])
  {
    var first := if ops == [] then 0 else ops[0].now;
    SweptRunIsAlike(c, ss, ops, ss0, first);
    WithoutSweepsInOrder(ops, first);
    ReportsAreTheSplit(c, ss, ops);
    ReportsAreTheSplit(c, ss0, WithoutSweeps(ops));
    TimelinesIgnoreSweeps(ops);
  }
}
