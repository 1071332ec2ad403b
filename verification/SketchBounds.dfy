/** What the ageing sketch guarantees on every run of additions and resets:
    its cells lie between the decayed true counts and a plain Count-Min Sketch,
    and its noise floor stays put. */
module SketchBounds {
  import opened Arithmetic
  import opened Sketch

  datatype Op = Add(v: string) | Reset

  /** The sketch, with two things it does not keep: how often each value was
      added, aged the way the sketch ages, and a plain sketch that raises every
      cell of a value on every addition, aged at the same moments. */
  datatype World = World(s: State, truth: map<string, nat>, plain: Grid)

  function Count(m: map<string, nat>, v: string): nat {
    if v in m then m[v] else 0
  }

  function HalvedCounts(m: map<string, nat>): map<string, nat> {
    map v | v in m :: m[v] / 2
  }

  /** The plain update of the first `k` rows: every cell of `v` grows. */
  function PlainRaised(sh: Shape, g: Grid, v: string, k: nat): Grid
    requires sh.width > 0 && forall i :: 0 <= i < |g| ==> |g[i]| == sh.width
  {
    seq(|g|, i requires 0 <= i < |g| =>
      var c := Column(sh, v, i);
      if i < k then g[i][c := g[i][c] + 1] else g[i])
  }

  predicate Halves(sh: Shape, s: State) {
    s.adds + 1 >= sh.width
  }

  ghost predicate WorldOk(sh: Shape, w: World) {
    && GridOk(sh, w.s.grid)
    && |w.plain| == sh.depth
    && (forall i :: 0 <= i < |w.plain| ==> |w.plain[i]| == sh.width)
  }

  function Step(sh: Shape, w: World, op: Op): (w': World)
    requires WorldOk(sh, w)
    ensures WorldOk(sh, w')
  {
    match op
    case Add(v) =>
      var truth := if Halves(sh, w.s) then HalvedCounts(w.truth) else w.truth;
      var plain := if Halves(sh, w.s) then Halved(w.plain) else w.plain;
      World(AfterAdd(sh, w.s, v), truth[v := Count(truth, v) + 1], PlainRaised(sh, plain, v, Rows(sh)))
    case Reset => World(AfterReset(sh, w.s), map[], Zeros(sh))
  }

  ghost function NewWorld(sh: Shape): World {
    World(State(Zeros(sh), 0), map[], Zeros(sh))
  }

  ghost function Run(sh: Shape, ops: seq<Op>): (w: World)
    requires sh.width > 0
    ensures WorldOk(sh, w)
  {
    if ops == [] then NewWorld(sh)
    else Step(sh, Run(sh, ops[..|ops| - 1]), ops[|ops| - 1])
  }

  // ---------------------------------------------------------------------
  // The noise floor
  // ---------------------------------------------------------------------

  ghost function Sum(row: seq<nat>): nat {
    if row == [] then 0 else Sum(row[..|row| - 1]) + row[|row| - 1]
  }

  /** How many cells of the row hold `k` or more. */
  ghost function AtLeast(row: seq<nat>, k: nat): nat {
    if row == [] then 0
    else AtLeast(row[..|row| - 1], k) + if row[|row| - 1] >= k then 1 else 0
  }

  lemma {:induction false} HalvingHalvesTheSum(row: seq<nat>)
    ensures 2 * Sum(HalvedRow(row)) <= Sum(row)
  {
    if row != [] {
      var k := |row| - 1;
      assert HalvedRow(row)[..k] == HalvedRow(row[..k]);
      HalvingHalvesTheSum(row[..k]);
    }
  }

  lemma {:induction false} RaisingAddsToTheSum(row: seq<nat>, c: nat, x: nat)
    requires c < |row|
    ensures Sum(row[c := x]) == Sum(row) - row[c] + x
  {
    var k := |row| - 1;
    var row': seq<nat> := row[c := x];
    if c < k {
      assert row'[..k] == row[..k][c := x];
      RaisingAddsToTheSum(row[..k], c, x);
    } else {
      assert row'[..k] == row[..k];
    }
  }

  lemma {:induction false} ZerosSumToNothing(n: nat)
    ensures Sum(seq(n, _ => 0)) == 0
  {
    if n > 0 {
      assert seq(n, _ => 0)[..n - 1] == seq(n - 1, _ => 0);
      ZerosSumToNothing(n - 1);
    }
  }

  lemma {:induction false} CellIsWithinTheSum(row: seq<nat>, c: nat)
    requires c < |row|
    ensures row[c] <= Sum(row)
  {
    if c < |row| - 1 {
      CellIsWithinTheSum(row[..|row| - 1], c);
    }
  }

  lemma {:induction false} LargeCellsAreFew(row: seq<nat>, k: nat)
    ensures k * AtLeast(row, k) <= Sum(row)
    ensures (forall c :: 0 <= c < |row| ==> row[c] >= k) ==> AtLeast(row, k) == |row|
  {
    if row != [] {
      var rest := row[..|row| - 1];
      LargeCellsAreFew(rest, k);
      if row[|row| - 1] >= k {
        assert k * (AtLeast(rest, k) + 1) == k * AtLeast(rest, k) + k;
      }
    }
  }

  /** Each row holds no more than one epoch's worth plus what was added since. */
  ghost predicate Quiet(sh: Shape, s: State) {
    && GridOk(sh, s.grid)
    && s.adds < sh.width
    && (forall i :: 0 <= i < sh.depth ==> Sum(s.grid[i]) <= sh.width + s.adds)
  }

  lemma RaisedRowGrowsByOne(sh: Shape, g: Grid, v: string, m: nat, k: nat, i: nat)
    requires GridOk(sh, g) && i < sh.depth && k <= sh.depth
    ensures Sum(Raised(sh, g, v, m, k)[i]) <= Sum(g[i]) + 1
  {
    RaisingAddsToTheSum(g[i], Column(sh, v, i), m + 1);
  }

  lemma AddStaysQuiet(sh: Shape, s: State, v: string)
    requires Quiet(sh, s)
    ensures Quiet(sh, AfterAdd(sh, s, v))
  {
    AgedIsOk(sh, s);
    var a := Aged(sh, s);
    forall i | 0 <= i < sh.depth
      ensures Sum(AfterAdd(sh, s, v).grid[i]) <= sh.width + a.adds
    {
      if Halves(sh, s) {
        assert a.grid[i] == HalvedRow(s.grid[i]);
        HalvingHalvesTheSum(s.grid[i]);
      }
      RaisedRowGrowsByOne(sh, a.grid, v, Smallest(sh, a.grid, v, Rows(sh)), Rows(sh), i);
    }
  }

  lemma {:induction false} RunsStayQuiet(sh: Shape, ops: seq<Op>)
    requires sh.width > 0
    ensures Quiet(sh, Run(sh, ops).s)
  {
    ZerosSumToNothing(sh.width);
    if ops != [] {
      var before, op := ops[..|ops| - 1], ops[|ops| - 1];
      RunsStayQuiet(sh, before);
      if op.Add? {
        AddStaysQuiet(sh, Run(sh, before).s, op.v);
      }
    }
  }

  /** The noise floor: on every run, every row sums to less than twice its
      width. So fewer than 2 * width / k cells hold k or more, some cell holds
      at most 1, and no cell reaches 2 * width. */
  lemma NoiseFloor(sh: Shape, ops: seq<Op>, i: nat, k: nat)
    requires sh.width > 0 && i < sh.depth
    ensures var row := Run(sh, ops).s.grid[i];
            && Sum(row) <= sh.width + Run(sh, ops).s.adds <= 2 * sh.width - 1
            && k * AtLeast(row, k) < 2 * sh.width
            && (exists c :: 0 <= c < sh.width && row[c] <= 1)
            && (forall c :: 0 <= c < sh.width ==> row[c] <= 2 * sh.width - 1)
  {
    RunsStayQuiet(sh, ops);
    var row := Run(sh, ops).s.grid[i];
    LargeCellsAreFew(row, k);
    LargeCellsAreFew(row, 2);
    assert AtLeast(row, 2) != |row|;
    forall c | 0 <= c < sh.width
      ensures row[c] <= 2 * sh.width - 1
    {
      CellIsWithinTheSum(row, c);
    }
  }

  lemma {:induction false} SmallestIsACell(sh: Shape, g: Grid, v: string, k: nat)
    requires GridOk(sh, g) && 0 < k <= sh.depth
    ensures exists i :: 0 <= i < k && Smallest(sh, g, v, k) == g[i][Column(sh, v, i)]
    ensures forall i :: 0 <= i < k ==> Smallest(sh, g, v, k) <= g[i][Column(sh, v, i)]
  {
    if k > 1 {
      SmallestIsACell(sh, g, v, k - 1);
    } else {
      assert Smallest(sh, g, v, 1) == g[0][Column(sh, v, 0)];
    }
  }

  /** Saturation, where an addition is refused, is out of reach as long as
      2 * width fits a cell; the code's width is 4096. */
  lemma NeverSaturates(sh: Shape, ops: seq<Op>, v: string)
    requires sh.width > 0 && sh.depth > 0 && 2 * sh.width <= MAX32
    ensures Estimate(sh, Run(sh, ops).s, v) < 2 * sh.width + 1
    ensures Smallest(sh, Aged(sh, Run(sh, ops).s).grid, v, Rows(sh)) < MAX32
  {
    var s := Run(sh, ops).s;
    AgedIsOk(sh, s);
    var a := Aged(sh, s);
    SmallestIsACell(sh, a.grid, v, Rows(sh));
    var i :| 0 <= i < Rows(sh) && Smallest(sh, a.grid, v, Rows(sh)) == a.grid[i][Column(sh, v, i)];
    NoiseFloor(sh, ops, i, 0);
    assert s.grid[i][Column(sh, v, i)] <= 2 * sh.width - 1;
  }

  // ---------------------------------------------------------------------
  // The sandwich
  // ---------------------------------------------------------------------

  ghost predicate CoversCounts(sh: Shape, g: Grid, truth: map<string, nat>)
    requires GridOk(sh, g)
  {
    forall v, i :: 0 <= i < Rows(sh) ==> Count(truth, v) <= g[i][Column(sh, v, i)]
  }

  ghost predicate StaysBelow(sh: Shape, g: Grid, plain: Grid)
    requires WorldOk(sh, World(State(g, 0), map[], plain))
  {
    forall i, j :: 0 <= i < sh.depth && 0 <= j < sh.width ==> g[i][j] <= plain[i][j]
  }

  /** Every cell of every value is at least the value's aged count and at most
      the plain sketch's cell. */
  ghost predicate Sandwiched(sh: Shape, w: World) {
    && WorldOk(sh, w)
    && CoversCounts(sh, w.s.grid, w.truth)
    && StaysBelow(sh, w.s.grid, w.plain)
  }

  lemma HalvingStaysSandwiched(sh: Shape, w: World)
    requires Sandwiched(sh, w)
    ensures Sandwiched(sh, World(State(Halved(w.s.grid), 0), HalvedCounts(w.truth), Halved(w.plain)))
  {
    AgedIsOk(sh, State(w.s.grid, sh.width));
    forall v, i | 0 <= i < Rows(sh)
      ensures Count(HalvedCounts(w.truth), v) <= Halved(w.s.grid)[i][Column(sh, v, i)]
    {
      assert Count(w.truth, v) <= w.s.grid[i][Column(sh, v, i)];
      assert Halved(w.s.grid)[i][Column(sh, v, i)] == w.s.grid[i][Column(sh, v, i)] / 2;
    }
    forall i, j | 0 <= i < sh.depth && 0 <= j < sh.width
      ensures Halved(w.s.grid)[i][j] <= Halved(w.plain)[i][j]
    {
      assert w.s.grid[i][j] <= w.plain[i][j];
    }
  }

  /** Raising the minimum keeps every cell of every value above its count. */
  lemma RaisedCellsCoverCounts(sh: Shape, g: Grid, truth: map<string, nat>, v: string, m: nat, u: string, i: nat)
    requires GridOk(sh, g) && i < Rows(sh)
    requires Count(truth, u) <= g[i][Column(sh, u, i)]
    requires Count(truth, v) <= m <= g[i][Column(sh, v, i)]
    ensures Count(truth[v := Count(truth, v) + 1], u) <= Raised(sh, g, v, m, Rows(sh))[i][Column(sh, u, i)]
  {
    var c := Column(sh, v, i);
    var row' := Raised(sh, g, v, m, Rows(sh))[i];
    assert row' == if g[i][c] == m then g[i][c := m + 1] else g[i];
  }

  lemma RaisedCellsStayBelowPlain(sh: Shape, g: Grid, plain: Grid, v: string, m: nat, i: nat, j: nat)
    requires GridOk(sh, g) && i < sh.depth && j < sh.width
    requires |plain| == sh.depth && (forall k :: 0 <= k < |plain| ==> |plain[k]| == sh.width)
    requires forall c :: 0 <= c < sh.width ==> g[i][c] <= plain[i][c]
    ensures Raised(sh, g, v, m, Rows(sh))[i][j] <= PlainRaised(sh, plain, v, Rows(sh))[i][j]
  {
    var c := Column(sh, v, i);
    assert g[i][c] <= plain[i][c];
    assert g[i][j] <= plain[i][j];
  }

  lemma RaisingIsOk(sh: Shape, w: World, v: string, m: nat)
    requires WorldOk(sh, w) && m < MAX32
    ensures WorldOk(sh, World(State(Raised(sh, w.s.grid, v, m, Rows(sh)), 0), map[],
                              PlainRaised(sh, w.plain, v, Rows(sh))))
  {
  }

  lemma RaisingCoversCounts(sh: Shape, w: World, v: string, m: nat)
    requires Sandwiched(sh, w) && sh.depth > 0 && m == Smallest(sh, w.s.grid, v, Rows(sh)) < MAX32
    ensures GridOk(sh, Raised(sh, w.s.grid, v, m, Rows(sh)))
    ensures CoversCounts(sh, Raised(sh, w.s.grid, v, m, Rows(sh)), w.truth[v := Count(w.truth, v) + 1])
  {
    RaisingIsOk(sh, w, v, m);
    SmallestIsACell(sh, w.s.grid, v, Rows(sh));
    forall u, i | 0 <= i < Rows(sh)
      ensures Count(w.truth[v := Count(w.truth, v) + 1], u)
              <= Raised(sh, w.s.grid, v, m, Rows(sh))[i][Column(sh, u, i)]
    {
      RaisedCellsCoverCounts(sh, w.s.grid, w.truth, v, m, u, i);
    }
  }

  lemma RaisingStaysBelow(sh: Shape, w: World, v: string, m: nat)
    requires Sandwiched(sh, w) && m < MAX32
    ensures WorldOk(sh, World(State(Raised(sh, w.s.grid, v, m, Rows(sh)), 0), map[],
                              PlainRaised(sh, w.plain, v, Rows(sh))))
    ensures StaysBelow(sh, Raised(sh, w.s.grid, v, m, Rows(sh)), PlainRaised(sh, w.plain, v, Rows(sh)))
  {
    RaisingIsOk(sh, w, v, m);
    forall i, j | 0 <= i < sh.depth && 0 <= j < sh.width
      ensures Raised(sh, w.s.grid, v, m, Rows(sh))[i][j] <= PlainRaised(sh, w.plain, v, Rows(sh))[i][j]
    {
      RaisedCellsStayBelowPlain(sh, w.s.grid, w.plain, v, m, i, j);
    }
  }

  lemma AddStaysSandwiched(sh: Shape, w: World, v: string)
    requires Sandwiched(sh, w) && sh.depth > 0
    requires Smallest(sh, Aged(sh, w.s).grid, v, Rows(sh)) < MAX32
    ensures Sandwiched(sh, Step(sh, w, Add(v)))
  {
    var aged := if Halves(sh, w.s)
                then World(State(Halved(w.s.grid), 0), HalvedCounts(w.truth), Halved(w.plain))
                else World(Aged(sh, w.s), w.truth, w.plain);
    if Halves(sh, w.s) {
      HalvingStaysSandwiched(sh, w);
    }
    var m := Smallest(sh, aged.s.grid, v, Rows(sh));
    RaisingCoversCounts(sh, aged, v, m);
    RaisingStaysBelow(sh, aged, v, m);
  }

  /** On every run, every cell of every value lies between the value's aged
      true count and the same cell of the plain sketch. */
  lemma {:induction false} SketchIsSandwiched(sh: Shape, ops: seq<Op>)
    requires sh.width > 0 && sh.depth > 0 && 2 * sh.width <= MAX32
    ensures Sandwiched(sh, Run(sh, ops))
  {
    if ops != [] {
      var before, op := ops[..|ops| - 1], ops[|ops| - 1];
      SketchIsSandwiched(sh, before);
      if op.Add? {
        NeverSaturates(sh, before, op.v);
        AddStaysSandwiched(sh, Run(sh, before), op.v);
      }
    }
  }

  /** What an addition reports is never below the value's aged count, the
      addition included: a frequent value cannot be suppressed. */
  lemma EstimateIsAnUpperBound(sh: Shape, ops: seq<Op>, v: string)
    requires sh.width > 0 && sh.depth > 0 && 2 * sh.width <= MAX32
    ensures Estimate(sh, Run(sh, ops).s, v) >= Count(Run(sh, ops + [Add(v)]).truth, v) >= 1
  {
    var w := Run(sh, ops);
    assert (ops + [Add(v)])[..|ops|] == ops;
    SketchIsSandwiched(sh, ops);
    NeverSaturates(sh, ops, v);
    var aged := Aged(sh, w.s);
    AgedIsOk(sh, w.s);
    if Halves(sh, w.s) {
      HalvingStaysSandwiched(sh, w);
    }
    var truth := if Halves(sh, w.s) then HalvedCounts(w.truth) else w.truth;
    SmallestIsACell(sh, aged.grid, v, Rows(sh));
    var i :| 0 <= i < Rows(sh) && Smallest(sh, aged.grid, v, Rows(sh)) == aged.grid[i][Column(sh, v, i)];
    assert Count(truth, v) <= aged.grid[i][Column(sh, v, i)];
  }

  // ---------------------------------------------------------------------
  // Adding a value twice in a row
  // ---------------------------------------------------------------------

  lemma RaisedIsOk(sh: Shape, g: Grid, v: string, m: nat)
    requires GridOk(sh, g) && m < MAX32
    ensures GridOk(sh, Raised(sh, g, v, m, Rows(sh)))
  {
  }

  lemma RaisedMinimum(sh: Shape, g: Grid, v: string, m: nat)
    requires GridOk(sh, g) && sh.depth > 0 && m == Smallest(sh, g, v, Rows(sh)) < MAX32
    ensures GridOk(sh, Raised(sh, g, v, m, Rows(sh)))
    ensures Smallest(sh, Raised(sh, g, v, m, Rows(sh)), v, Rows(sh)) == m + 1
  {
    RaisedIsOk(sh, g, v, m);
    var g' := Raised(sh, g, v, m, Rows(sh));
    SmallestIsACell(sh, g, v, Rows(sh));
    SmallestIsACell(sh, g', v, Rows(sh));
    var i :| 0 <= i < Rows(sh) && m == g[i][Column(sh, v, i)];
    var j :| 0 <= j < Rows(sh) && Smallest(sh, g', v, Rows(sh)) == g'[j][Column(sh, v, j)];
    assert g'[i][Column(sh, v, i)] == m + 1;
    assert g[j][Column(sh, v, j)] >= m;
    assert g'[j][Column(sh, v, j)] >= m + 1;
  }

  lemma HalvedIsOk(sh: Shape, g: Grid)
    requires GridOk(sh, g)
    ensures GridOk(sh, Halved(g))
  {
    AgedIsOk(sh, State(g, sh.width));
  }

  lemma {:induction false} HalvedMinimum(sh: Shape, g: Grid, v: string, k: nat)
    requires GridOk(sh, g) && 0 < k <= sh.depth
    ensures GridOk(sh, Halved(g))
    ensures Smallest(sh, Halved(g), v, k) == Smallest(sh, g, v, k) / 2
  {
    HalvedIsOk(sh, g);
    var c := Column(sh, v, k - 1);
    assert Halved(g)[k - 1][c] == g[k - 1][c] / 2;
    if k > 1 {
      HalvedMinimum(sh, g, v, k - 1);
    } else {
      assert Smallest(sh, g, v, 0) == Smallest(sh, Halved(g), v, 0) == MAX32;
      assert g[0][c] <= MAX32;
    }
  }

  /** The estimate of the very next addition of the same value: one more, or
      half of it and one more if that addition is the one that halves. */
  lemma SecondEstimate(sh: Shape, s: State, v: string)
    requires GridOk(sh, s.grid) && sh.depth > 0 && Estimate(sh, s, v) < MAX32
    ensures Estimate(sh, AfterAdd(sh, s, v), v)
            == if Halves(sh, AfterAdd(sh, s, v)) then Estimate(sh, s, v) / 2 + 1 else Estimate(sh, s, v) + 1
  {
    AgedIsOk(sh, s);
    var a := Aged(sh, s);
    var m := Smallest(sh, a.grid, v, Rows(sh));
    var s1 := AfterAdd(sh, s, v);
    RaisedMinimum(sh, a.grid, v, m);
    assert s1.grid == Raised(sh, a.grid, v, m, Rows(sh));
    AgedIsOk(sh, s1);
    if Halves(sh, s1) {
      HalvedMinimum(sh, s1.grid, v, Rows(sh));
    }
  }

  /** The aged count after two additions in a row: two more, unless one of them
      halves. */
  lemma SecondCount(sh: Shape, w: World, v: string)
    requires WorldOk(sh, w) && sh.width > 2
    ensures var once := Step(sh, w, Add(v));
            var twice := Step(sh, once, Add(v));
            Count(twice.truth, v)
            == if Halves(sh, w.s) then Count(w.truth, v) / 2 + 2
               else if Halves(sh, once.s) then (Count(w.truth, v) + 1) / 2 + 1
               else Count(w.truth, v) + 2
  {
  }

  /** A value that a fresh sketch meets for the first time. */
  lemma FirstEstimate(sh: Shape, v: string)
    requires sh.width > 0 && sh.depth > 0
    ensures GridOk(sh, Zeros(sh)) && Estimate(sh, State(Zeros(sh), 0), v) == 1
  {
    var s := State(Zeros(sh), 0);
    AgedIsOk(sh, s);
    SmallestIsACell(sh, Aged(sh, s).grid, v, Rows(sh));
    var i :| 0 <= i < Rows(sh) && Smallest(sh, Aged(sh, s).grid, v, Rows(sh)) == Aged(sh, s).grid[i][Column(sh, v, i)];
    assert Aged(sh, s).grid[i][Column(sh, v, i)] == 0;
  }

  // ---------------------------------------------------------------------
  // From the calls alone
  // ---------------------------------------------------------------------

  ghost function Additions(ops: seq<Op>): nat {
    if ops == [] then 0 else Additions(ops[..|ops| - 1]) + if ops[|ops| - 1].Add? then 1 else 0
  }

  lemma NextRemainder(n: nat, width: nat)
    requires width > 0
    ensures (n + 1) % width == if n % width + 1 >= width then 0 else n % width + 1
  {
    if n % width + 1 >= width {
      RemainderOf(n + 1, width, n / width + 1, 0);
    } else {
      RemainderOf(n + 1, width, n / width, n % width + 1);
    }
  }

  lemma StepAdds(sh: Shape, w: World, op: Op)
    requires WorldOk(sh, w)
    ensures Step(sh, w, op).s.adds
            == if op.Reset? then w.s.adds else if w.s.adds + 1 >= sh.width then 0 else w.s.adds + 1
  {
  }

  /** How many additions a run made since the last `width`-th one. */
  ghost function Phase(ops: seq<Op>, width: nat): nat {
    if ops == [] then 0
    else
      var n := Phase(ops[..|ops| - 1], width);
      if ops[|ops| - 1].Reset? then n else if n + 1 >= width then 0 else n + 1
  }

  lemma {:induction false} PhaseIsRemainder(ops: seq<Op>, width: nat)
    requires width > 0
    ensures Phase(ops, width) == Additions(ops) % width
  {
    if ops != [] {
      PhaseIsRemainder(ops[..|ops| - 1], width);
      NextRemainder(Additions(ops[..|ops| - 1]), width);
    }
  }

  lemma {:induction false} AddsAreThePhase(sh: Shape, ops: seq<Op>)
    requires sh.width > 0
    ensures Run(sh, ops).s.adds == Phase(ops, sh.width)
  {
    if ops != [] {
      AddsAreThePhase(sh, ops[..|ops| - 1]);
      StepAdds(sh, Run(sh, ops[..|ops| - 1]), ops[|ops| - 1]);
    }
  }

  /** The sketch halves at every `width`-th addition of a run and at no other,
      whatever resets come in between. */
  lemma HalvesEveryWidth(sh: Shape, ops: seq<Op>)
    requires sh.width > 0
    ensures Halves(sh, Run(sh, ops).s) <==> (Additions(ops) + 1) % sh.width == 0
  {
    AddsAreThePhase(sh, ops);
    PhaseIsRemainder(ops, sh.width);
    NextRemainder(Additions(ops), sh.width);
  }

  /** How often a run added `v` since the last reset, where everything before an
      addition that is the `width`-th again counts half. */
  ghost function Sightings(ops: seq<Op>, v: string, width: nat): nat
    requires width > 0
  {
    if ops == [] then 0
    else
      var before, op := ops[..|ops| - 1], ops[|ops| - 1];
      match op
      case Reset => 0
      case Add(u) =>
        (if Additions(ops) % width == 0 then Sightings(before, v, width) / 2 else Sightings(before, v, width))
        + if u == v then 1 else 0
  }

  lemma StepCounts(sh: Shape, w: World, op: Op, v: string)
    requires WorldOk(sh, w)
    ensures Count(Step(sh, w, op).truth, v)
            == match op
               case Reset => 0
               case Add(u) =>
                 (if Halves(sh, w.s) then Count(w.truth, v) / 2 else Count(w.truth, v)) + if u == v then 1 else 0
  {
  }

  lemma AdditionsOneMore(ops: seq<Op>)
    requires ops != [] && ops[|ops| - 1].Add?
    ensures Additions(ops) == Additions(ops[..|ops| - 1]) + 1
  {
  }

  lemma {:induction false} TruthIsSightings(sh: Shape, ops: seq<Op>, v: string)
    requires sh.width > 0
    ensures Count(Run(sh, ops).truth, v) == Sightings(ops, v, sh.width)
  {
    if ops != [] {
      var before, op := ops[..|ops| - 1], ops[|ops| - 1];
      TruthIsSightings(sh, before, v);
      StepCounts(sh, Run(sh, before), op, v);
      HalvesEveryWidth(sh, before);
      if op.Add? {
        AdditionsOneMore(ops);
      }
    }
  }

  lemma SmallestIsBelow(sh: Shape, g: Grid, v: string, i: nat)
    requires GridOk(sh, g) && i < Rows(sh)
    ensures Smallest(sh, g, v, Rows(sh)) <= g[i][Column(sh, v, i)]
  {
    SmallestIsACell(sh, g, v, Rows(sh));
  }

  lemma RaisedCell(sh: Shape, g: Grid, v: string, m: nat, i: nat, j: nat)
    requires GridOk(sh, g) && i < sh.depth && j < sh.width
    requires i < Rows(sh) ==> m <= g[i][Column(sh, v, i)]
    ensures Raised(sh, g, v, m, Rows(sh))[i][j]
            == if i < Rows(sh) && j == Column(sh, v, i) && g[i][j] < m + 1 then m + 1 else g[i][j]
  {
  }

  lemma AgedCell(sh: Shape, s: State, i: nat, j: nat)
    requires GridOk(sh, s.grid) && i < sh.depth && j < sh.width
    ensures GridOk(sh, Aged(sh, s).grid)
    ensures Aged(sh, s).grid[i][j] == if s.adds + 1 >= sh.width then s.grid[i][j] / 2 else s.grid[i][j]
  {
    AgedIsOk(sh, s);
  }

  /** The law of conservative update: an addition lifts the cells of its value to
      the estimate it reports where they are below it, and touches no other cell
      (but for the halving that may come first). */
  lemma AddLiftsToTheEstimate(sh: Shape, s: State, v: string, i: nat, j: nat)
    requires GridOk(sh, s.grid) && i < sh.depth && j < sh.width && Estimate(sh, s, v) < MAX32
    ensures var was := if s.adds + 1 >= sh.width then s.grid[i][j] / 2 else s.grid[i][j];
            AfterAdd(sh, s, v).grid[i][j]
            == if i < 8 && j == Column(sh, v, i) && was < Estimate(sh, s, v) then Estimate(sh, s, v) else was
  {
    AgedCell(sh, s, i, j);
    var g := Aged(sh, s).grid;
    if i < Rows(sh) {
      SmallestIsBelow(sh, g, v, i);
    }
    RaisedCell(sh, g, v, Smallest(sh, g, v, Rows(sh)), i, j);
  }

  /** And the estimate is the smallest cell of the value afterwards. */
  lemma EstimateIsTheNewMinimum(sh: Shape, s: State, v: string)
    requires GridOk(sh, s.grid) && sh.depth > 0 && Estimate(sh, s, v) < MAX32
    ensures Smallest(sh, AfterAdd(sh, s, v).grid, v, Rows(sh)) == Estimate(sh, s, v)
  {
    AgedIsOk(sh, s);
    RaisedMinimum(sh, Aged(sh, s).grid, v, Smallest(sh, Aged(sh, s).grid, v, Rows(sh)));
  }

  // ---------------------------------------------------------------------
  // Columns
  // ---------------------------------------------------------------------

  /** The second hash is the first with its 32-bit halves swapped. */
  lemma SwapsHalves(hi: nat, lo: nat)
    requires hi < TWO32 && lo < TWO32
    ensures hi * TWO32 + lo < TWO64 && Swapped(hi * TWO32 + lo) == lo * TWO32 + hi
  {
    RemainderOf(hi * TWO32 + lo, TWO32, hi, lo);
  }

  /** A row's column is the hash plus the row's number of second hashes, on 64-bit
      words, modulo the width. */
  lemma ColumnInWords(sh: Shape, v: string, i: nat)
    requires sh.width > 0
    ensures Column(sh, v, i) == (sh.hash(v) + i * Swapped(sh.hash(v))) % 0x1_0000_0000_0000_0000 % sh.width
  {
    ProbeIsProduct(sh.hash(v), i);
  }

  lemma ColumnIsLinear(sh: Shape, v: string, i: nat, k: nat)
    requires sh.width > 0 && k > 0 && sh.width * k == TWO64
    ensures Column(sh, v, i) == (sh.hash(v) + i * Swapped(sh.hash(v))) % sh.width
  {
    ColumnInWords(sh, v, i);
    RemainderTwice(sh.hash(v) + i * Swapped(sh.hash(v)), sh.width, k);
  }

  lemma Distributes(i: int, j: int, s: int)
    ensures i * s - j * s == (i - j) * s
  {
  }

  /** Two rows look a value up in the same column if and only if the width divides
      their distance times the second hash (for a width that divides the word
      size, as 4096 does). */
  lemma RowsShareAColumnIff(sh: Shape, v: string, i: nat, j: nat, k: nat)
    requires sh.width > 0 && k > 0 && sh.width * k == TWO64
    ensures Column(sh, v, i) == Column(sh, v, j) <==> (i - j) * Swapped(sh.hash(v)) % sh.width == 0
  {
    var h, s := sh.hash(v), Swapped(sh.hash(v));
    ColumnIsLinear(sh, v, i, k);
    ColumnIsLinear(sh, v, j, k);
    Distributes(i, j, s);
    SameRemainderIff(h + i * s, h + j * s, sh.width);
  }
}
