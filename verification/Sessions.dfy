/** The session tracker of internal/sketch/session.go.

    Times are integer nanoseconds. `Sessions` is the code: a map of
    heap-allocated sessions that its calls update, with a loop that searches
    the least recently seen one. What a call does to the values of the map is
    said by `Step`, which leaves open which of several equally old sessions is
    evicted first. */
module Sessions {
  import opened Bags

  type Id = nat

  datatype Live = Live(start: int, lastSeen: int, pages: nat, entry: string, exit: string)

  datatype Ended = Ended(duration: int, pages: nat, entry: string, exit: string, bounced: bool)

  datatype Config = Config(ttl: int, cap: int)

  function Finish(s: Live): Ended {
    Ended(s.lastSeen - s.start, s.pages, s.entry, s.exit, s.pages == 1)
  }

  function Opened(path: string, now: int): Live {
    Live(now, now, 1, path, path)
  }

  function Viewed(s: Live, path: string, now: int): Live {
    s.(pages := s.pages + 1, lastSeen := now, exit := path)
  }

  /** Whether `id` has a session that is not idle for `ttl` or longer. */
  predicate Continues(ttl: int, m: map<Id, Live>, id: Id, now: int) {
    id in m && now - m[id].lastSeen < ttl
  }

  function Touched(ttl: int, m: map<Id, Live>, id: Id, path: string, now: int): map<Id, Live> {
    m[id := if Continues(ttl, m, id, now) then Viewed(m[id], path, now) else Opened(path, now)]
  }

  /** The stale session a page view closes before it opens a new one. */
  ghost function Closed(ttl: int, m: map<Id, Live>, id: Id, now: int): multiset<Ended> {
    if id in m && !Continues(ttl, m, id, now) then multiset{Finish(m[id])} else multiset{}
  }

  function Extended(ttl: int, m: map<Id, Live>, id: Id, now: int): map<Id, Live> {
    if Continues(ttl, m, id, now) then m[id := m[id].(lastSeen := now)] else m
  }

  function Stale(ttl: int, m: map<Id, Live>, now: int): set<Id> {
    set id | id in m && now - m[id].lastSeen >= ttl
  }

  ghost function FinishOne(s: Live): multiset<Ended> {
    multiset{Finish(s)}
  }

  /** What the sessions of a map would be reported as. */
  ghost function Finished(m: map<Id, Live>): multiset<Ended> {
    Gather(m, FinishOne)
  }

  /** How many sessions eviction leaves of `n`. */
  function Kept(cap: int, n: nat): nat {
    if n <= cap then n else if cap < 0 then 0 else cap
  }

  /** Eviction by least recent use: `m'` is what is left of `m` at the cap, and
      nothing evicted was seen later than anything left. */
  ghost predicate Evicts(cap: int, m: map<Id, Live>, m': map<Id, Live>) {
    && m'.Keys <= m.Keys
    && m' == Only(m, m'.Keys)
    && |m'| == Kept(cap, |m|)
    && (forall gone, left :: gone in m && gone !in m' && left in m' ==> m[gone].lastSeen <= m[left].lastSeen)
  }

  /** The tracker with everything it ever reported. */
  datatype State = State(live: map<Id, Live>, evicted: nat, started: multiset<string>, ended: multiset<Ended>)

  datatype Op = Touch(id: Id, path: string, now: int) | Extend(id: Id, now: int) | Sweep(now: int)

  /** A page view of somebody without a current session, after the view itself. */
  ghost predicate Opens(c: Config, s: State, id: Id, path: string, now: int, s': State) {
    var m := Touched(c.ttl, s.live, id, path, now);
    && Evicts(c.cap, m, s'.live)
    && s'.evicted == s.evicted + |m| - |s'.live|
    && s'.started == s.started + multiset{path}
    && s'.ended == s.ended + Closed(c.ttl, s.live, id, now) + Finished(m - s'.live.Keys)
  }

  /** What one call does. */
  ghost predicate Step(c: Config, s: State, op: Op, s': State) {
    match op
    case Touch(id, path, now) =>
      if Continues(c.ttl, s.live, id, now) then s' == s.(live := Touched(c.ttl, s.live, id, path, now))
      else Opens(c, s, id, path, now, s')
    case Extend(id, now) => s' == s.(live := Extended(c.ttl, s.live, id, now))
    case Sweep(now) =>
      var stale := Stale(c.ttl, s.live, now);
      s' == s.(live := s.live - stale, ended := s.ended + Finished(Only(s.live, stale)))
  }

  // ---------------------------------------------------------------------
  // The tracker
  // ---------------------------------------------------------------------

  /** Whoever listens to session events; here, one that remembers them all. */
  class Sink {
    var started: multiset<string>
    var ended: multiset<Ended>

    constructor ()
      ensures started == multiset{} && ended == multiset{}
    {
      started, ended := multiset{}, multiset{};
    }

    method SessionStarted(path: string)
      modifies this
      ensures started == old(started) + multiset{path} && ended == old(ended)
    {
      started := started + multiset{path};
    }

    method SessionEnded(e: Ended)
      modifies this
      ensures ended == old(ended) + multiset{e} && started == old(started)
    {
      ended := ended + multiset{e};
    }
  }

  class Session {
    var start: int
    var lastSeen: int
    var pages: nat
    var entry: string
    var exit: string
    ghost const owner: Id

    constructor (path: string, now: int, ghost owner: Id)
      ensures Now() == Opened(path, now) && this.owner == owner
    {
      this.owner := owner;
      start, lastSeen, pages := now, now, 1;
      entry, exit := path, path;
    }

    function Now(): Live
      reads this
    {
      Live(start, lastSeen, pages, entry, exit)
    }

    method View(path: string, now: int)
      modifies this
      ensures Now() == Viewed(old(Now()), path, now)
    {
      pages := pages + 1;
      lastSeen := now;
      exit := path;
    }
  }

  class Sessions {
    const config: Config
    const sink: Sink
    var m: map<Id, Session>
    var evicted: nat

    ghost var Current: map<Id, Live>  // what the sessions hold
    ghost var Repr: set<Session>

    ghost predicate Valid()
      reads `m, `Current, `Repr, Repr
    {
      && Current.Keys == m.Keys
      && (forall id :: id in m ==>
            && m[id] in Repr && m[id].owner == id
            && Current[id] == Live(m[id].start, m[id].lastSeen, m[id].pages, m[id].entry, m[id].exit))
    }

    ghost function Now(): State
      reads this, sink
    {
      State(Current, evicted, sink.started, sink.ended)
    }

    constructor (ttl: int, capacity: int, sink: Sink)
      ensures Valid() && fresh(Repr) && this.sink == sink && config == Config(ttl, capacity)
      ensures Now() == State(map[], 0, sink.started, sink.ended)
    {
      config := Config(ttl, capacity);
      this.sink := sink;
      m, evicted := map[], 0;
      Current, Repr := map[], {};
    }

    method Touch(id: Id, path: string, now: int) returns (isNew: bool)
      requires Valid()
      modifies this, sink, Repr
      ensures Valid() && fresh(Repr - old(Repr))
      ensures isNew <==> !Continues(config.ttl, old(Current), id, now)
      ensures Step(config, old(Now()), Op.Touch(id, path, now), Now())
    {
      if id in m && now - m[id].lastSeen < config.ttl {
        Continue(id, path, now);
        return false;
      }
      Reopen(id, path, now);
      Announce(path);
      return true;
    }

    /** Reports a new session, and makes room for it if there are now too many. */
    method Announce(path: string)
      requires Valid()
      modifies this, sink
      ensures Valid() && Repr == old(Repr)
      ensures Evicts(config.cap, old(Current), Current)
      ensures evicted == old(evicted) + |old(Current)| - |Current|
      ensures sink.started == old(sink.started) + multiset{path}
      ensures sink.ended == old(sink.ended) + Finished(old(Current) - Current.Keys)
    {
      var over := |m| > config.cap;
      sink.SessionStarted(path);
      if over {
        EvictOldest();
      } else {
        SameSize(m, Current);
        NothingToEvict(config.cap, Current);
      }
    }

    /** Counts a page view towards the current session. */
    method Continue(id: Id, path: string, now: int)
      requires Valid() && id in m
      modifies `Current, Repr
      ensures Valid() && Current == old(Current)[id := Viewed(old(Current)[id], path, now)]
    {
      m[id].View(path, now);
      Current := Current[id := Viewed(Current[id], path, now)];
    }

    /** Closes a session idle past the TTL, rather than resurrecting it, and
        opens a new one in its place. */
    method Reopen(id: Id, path: string, now: int)
      requires Valid() && !Continues(config.ttl, Current, id, now)
      modifies this, sink
      ensures Valid() && fresh(Repr - old(Repr)) && evicted == old(evicted)
      ensures Current == old(Current)[id := Opened(path, now)]
      ensures sink.started == old(sink.started)
      ensures sink.ended == old(sink.ended) + Closed(config.ttl, old(Current), id, now)
    {
      if id in m {
        var ended := Finish(m[id].Now());
        m := m - {id};
        sink.SessionEnded(ended);
      }
      var s := new Session(path, now, id);
      m := m[id := s];
      Current, Repr := Current[id := Opened(path, now)], Repr + {s};
    }

    method Extend(id: Id, now: int)
      requires Valid()
      modifies this, Repr
      ensures Valid() && Repr == old(Repr)
      ensures Step(config, old(Now()), Op.Extend(id, now), Now())
    {
      if id in m && now - m[id].lastSeen < config.ttl {
        m[id].lastSeen := now;
        Current := Extended(config.ttl, Current, id, now);
      }
    }

    method Sweep(now: int) returns (n: nat)
      requires Valid()
      modifies this, sink
      ensures Valid() && Repr == old(Repr)
      ensures n == |Stale(config.ttl, old(Current), now)|
      ensures Step(config, old(Now()), Op.Sweep(now), Now())
    {
      var done := CloseStale(now);
      ReportAll(done);
      return |done|;
    }

    /** Forgets a session. */
    method Remove(id: Id)
      requires Valid() && id in m
      modifies `m, `Current
      ensures Valid() && Current == old(Current) - {id}
    {
      m, Current := m - {id}, Current - {id};
    }

    /** The part of `Sweep` that holds the lock. */
    method CloseStale(now: int) returns (done: seq<Ended>)
      requires Valid()
      modifies `m, `Current
      ensures Valid()
      ensures Current == old(Current) - Stale(config.ttl, old(Current), now)
      ensures multiset(done) == Finished(Only(old(Current), Stale(config.ttl, old(Current), now)))
      ensures |done| == |Stale(config.ttl, old(Current), now)|
    {
      done := [];
      ghost var was := Current;
      ghost var stale := Stale(config.ttl, was, now);
      ghost var gone: set<Id> := {};
      var pending := m.Keys;
      NothingTaken(was);
      while pending != {}
        invariant Valid() && pending <= was.Keys
        invariant gone == stale - pending
        invariant Taken(was, gone, Current, done)
        decreases pending
      {
        var id :| id in pending;
        Unvisited(was, stale, pending, id);
        var cur := m[id];
        if now - cur.lastSeen >= config.ttl {
          TakenOneMore(was, gone, Current, done, id);
          done := done + [Finish(cur.Now())];
          Remove(id);
          gone := gone + {id};
        }
        pending := pending - {id};
      }
      assert gone == stale;
    }

    method EvictOldest()
      requires Valid()
      modifies this, sink
      ensures Valid() && Repr == old(Repr)
      ensures Evicts(config.cap, old(Current), Current)
      ensures evicted == old(evicted) + |old(Current)| - |Current|
      ensures sink.started == old(sink.started)
      ensures sink.ended == old(sink.ended) + Finished(old(Current) - Current.Keys)
    {
      var done := DropOldest();
      ReportAll(done);
    }

    /** The part of `EvictOldest` that holds the lock. */
    method DropOldest() returns (done: seq<Ended>)
      requires Valid()
      modifies `m, `Current, `evicted
      ensures Valid()
      ensures Evicts(config.cap, old(Current), Current)
      ensures evicted == old(evicted) + |old(Current)| - |Current|
      ensures multiset(done) == Finished(old(Current) - Current.Keys)
    {
      done := [];
      ghost var was := Current;
      ghost var gone: set<Id> := {};
      NothingTaken(was);
      SameSize(m, Current);
      while |m| > config.cap
        invariant Valid() && |m| == |Current|
        invariant Evicting(config.cap, was, gone, Current)
        invariant evicted == old(evicted) + |gone|
        invariant Taken(was, gone, Current, done)
        decreases |Current|
      {
        ghost var left := Current;
        var found, id := Oldest();
        if !found {
          break;
        }
        EvictOne(config.cap, was, gone, left, id);
        TakenOneMore(was, gone, left, done, id);
        var e := Drop(id);
        done := done + [e];
        gone := gone + {id};
      }
      EvictionIsDone(config.cap, was, gone, Current);
    }

    /** Evicts one session. */
    method Drop(id: Id) returns (e: Ended)
      requires Valid() && id in m
      modifies `m, `Current, `evicted
      ensures Valid() && |m| == |Current|
      ensures Current == old(Current) - {id} && evicted == old(evicted) + 1
      ensures e == Finish(old(Current)[id])
    {
      e := Finish(m[id].Now());
      m, Current := m - {id}, Current - {id};
      evicted := evicted + 1;
      SameSize(m, Current);
    }

    /** The search for the least recently seen session, in any order. */
    method Oldest() returns (found: bool, id: Id)
      requires Valid()
      ensures found <==> Current != map[]
      ensures found ==> id in m && forall j :: j in Current ==> Current[id].lastSeen <= Current[j].lastSeen
    {
      var oldest := 0;
      found, id := false, 0;
      var pending := m.Keys;
      while pending != {}
        invariant pending <= m.Keys
        invariant found <==> pending != m.Keys
        invariant found ==> id in m && oldest == Current[id].lastSeen
        invariant found ==> forall j :: j in Current && j !in pending ==> oldest <= Current[j].lastSeen
        decreases pending
      {
        var j :| j in pending;
        pending := pending - {j};
        if !found || m[j].lastSeen < oldest {
          id, oldest, found := j, m[j].lastSeen, true;
        }
      }
    }

    method ReportAll(done: seq<Ended>)
      modifies sink
      ensures sink.started == old(sink.started)
      ensures sink.ended == old(sink.ended) + multiset(done)
    {
      for i := 0 to |done|
        invariant sink.started == old(sink.started)
        invariant sink.ended == old(sink.ended) + multiset(done[..i])
      {
        sink.SessionEnded(done[i]);
        assert done[..i + 1] == done[..i] + [done[i]];
      }
      assert done[..|done|] == done;
    }
  }

  /** Half-way through an eviction: `gone` has been taken out of `m`, which
      leaves `left`, and nothing of it was seen later than anything left. */
  ghost predicate Evicting(cap: int, m: map<Id, Live>, gone: set<Id>, left: map<Id, Live>) {
    && gone <= m.Keys
    && left == m - gone
    && |gone| + |left| == |m|
    && (|m| > cap ==> |left| >= cap)
    && (gone != {} ==> |m| > cap)
    && (forall g, l :: g in gone && l in left ==> m[g].lastSeen <= m[l].lastSeen)
  }

  lemma RemoveOne(m: map<Id, Live>, id: Id)
    requires id in m
    ensures |m - {id}| == |m| - 1
  {
    assert m.Keys == (m - {id}).Keys + {id};
    assert |m| == |m.Keys| && |m - {id}| == |(m - {id}).Keys|;
  }

  lemma EvictOne(cap: int, m: map<Id, Live>, gone: set<Id>, left: map<Id, Live>, id: Id)
    requires Evicting(cap, m, gone, left) && |left| > cap
    requires id in left && forall j :: j in left ==> left[id].lastSeen <= left[j].lastSeen
    ensures id !in gone && id in m && left[id] == m[id]
    ensures Evicting(cap, m, gone + {id}, left - {id}) && |left - {id}| == |left| - 1
  {
    RemoveOne(left, id);
    assert left - {id} == m - (gone + {id});
    assert |gone + {id}| == |gone| + 1;
  }

  lemma EvictionIsDone(cap: int, m: map<Id, Live>, gone: set<Id>, left: map<Id, Live>)
    requires Evicting(cap, m, gone, left)
    requires |left| <= cap || left == map[]
    ensures Evicts(cap, m, left)
    ensures |m| - |left| == |gone|
    ensures m - left.Keys == Only(m, gone)
  {
    if gone == {} {
      assert left == m;
    }
  }

  lemma NothingTaken(m: map<Id, Live>)
    ensures Only(m, {}) == map[] && m - {} == m
    ensures Finished(Only(m, {})) == multiset{}
  {
  }

  lemma NothingToEvict(cap: int, m: map<Id, Live>)
    requires |m| <= cap
    ensures Evicts(cap, m, m) && Finished(m - m.Keys) == multiset{}
  {
    assert m - m.Keys == map[];
  }

  /** `gone` has been taken out of `m`, which leaves `left`, and is reported in `done`. */
  ghost predicate Taken(m: map<Id, Live>, gone: set<Id>, left: map<Id, Live>, done: seq<Ended>) {
    && left == m - gone
    && multiset(done) == Finished(Only(m, gone))
    && |done| == |gone|
  }

  lemma TakenOneMore(m: map<Id, Live>, gone: set<Id>, left: map<Id, Live>, done: seq<Ended>, id: Id)
    requires Taken(m, gone, left, done) && id in left
    ensures left[id] == m[id]
    ensures Taken(m, gone + {id}, left - {id}, done + [Finish(m[id])])
  {
    TakeOne(m, gone, id);
  }

  /** Taking one more session out of a map adds one more to the report. */
  lemma TakeOne(m: map<Id, Live>, gone: set<Id>, id: Id)
    requires id in m && id !in gone
    ensures Finished(Only(m, gone + {id})) == Finished(Only(m, gone)) + multiset{Finish(m[id])}
    ensures |gone + {id}| == |gone| + 1
    ensures m - gone - {id} == m - (gone + {id})
  {
    OnlyOneMore(m, gone, id);
    GatherPutsIn(Only(m, gone), id, m[id], FinishOne);
  }

  lemma SameSize<U, V>(a: map<Id, U>, b: map<Id, V>)
    requires a.Keys == b.Keys
    ensures |a| == |b|
  {
    assert |a| == |a.Keys| && |b| == |b.Keys|;
  }

  lemma Unvisited(m: map<Id, Live>, wanted: set<Id>, pending: set<Id>, id: Id)
    requires id in pending && pending <= m.Keys
    ensures id in m - (wanted - pending) && (m - (wanted - pending))[id] == m[id]
    ensures id in wanted ==> wanted - (pending - {id}) == wanted - pending + {id}
    ensures id !in wanted ==> wanted - (pending - {id}) == wanted - pending
  {
  }
}
