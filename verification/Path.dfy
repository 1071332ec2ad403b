/** Path normalisation (internal/enrich/path.go), from the path of a parsed URL
    on. A path is a string of bytes, and only ASCII letters have a lower case. */
module Path {

  const MAX_LEN := 128

  // ---------------------------------------------------------------------
  // Identifier-shaped segments
  // ---------------------------------------------------------------------

  predicate IsDigit(c: char) {
    '0' <= c <= '9'
  }

  predicate IsHex(c: char) {
    IsDigit(c) || 'a' <= c <= 'f' || 'A' <= c <= 'F'
  }

  ghost predicate AllDigits(s: string) {
    forall i :: 0 <= i < |s| ==> IsDigit(s[i])
  }

  ghost predicate AllHex(s: string) {
    forall i :: 0 <= i < |s| ==> IsHex(s[i])
  }

  predicate DashAt(i: nat) {
    i == 8 || i == 13 || i == 18 || i == 23
  }

  /** The text form of a UUID, section 4 of RFC 9562. */
  ghost predicate IsUuid(s: string) {
    |s| == 36 && forall i :: 0 <= i < |s| ==> if DashAt(i) then s[i] == '-' else IsHex(s[i])
  }

  function Digit(c: char): nat {
    if IsDigit(c) then c as nat - '0' as nat else 0
  }

  function Decimal(s: string): nat {
    if s == "" then 0 else 10 * Decimal(s[..|s| - 1]) + Digit(s[|s| - 1])
  }

  /** Four digits in the range of years that are real routes. */
  predicate IsYear(s: string) {
    |s| == 4 && 1900 <= Decimal(s) <= 2100
  }

  /** What counts as an opaque id: a UUID, a run of four or more digits that is
      no year, or twelve or more hex digits. */
  ghost predicate Identifier(s: string) {
    || IsUuid(s)
    || (AllDigits(s) && |s| >= 4 && !IsYear(s))
    || (AllHex(s) && |s| >= 12)
  }

  method IsUUID(s: string) returns (r: bool)
    ensures r <==> IsUuid(s)
  {
    if |s| != 36 {
      return false;
    }
    for i := 0 to |s|
      invariant forall j :: 0 <= j < i ==> if DashAt(j) then s[j] == '-' else IsHex(s[j])
    {
      if DashAt(i) {
        if s[i] != '-' {
          return false;
        }
        continue;
      }
      if !IsHex(s[i]) {
        return false;
      }
    }
    return true;
  }

  method IsIdentifier(s: string) returns (r: bool)
    ensures r <==> Identifier(s)
  {
    if |s| < 2 {
      return false;
    }
    var uuid := IsUUID(s);
    if uuid {
      return true;
    }
    var digits, hexish, other := 0, 0, 0;
    for i := 0 to |s|
      invariant 0 <= digits <= i && (digits == i <==> AllDigits(s[..i]))
      invariant 0 <= hexish <= i && (hexish == i <==> AllHex(s[..i]))
      invariant other > 0 ==> !AllHex(s[..i])
      invariant digits <= hexish
      invariant other >= 0
    {
      assert s[..i + 1] == s[..i] + [s[i]];
      OneCharMore(s[..i], s[i]);
      if IsDigit(s[i]) {
        digits := digits + 1;
        hexish := hexish + 1;
      } else if IsHex(s[i]) {
        hexish := hexish + 1;
      } else if s[i] == '-' || s[i] == '_' {
        // A separator, ignored.
      } else {
        other := other + 1;
      }
    }
    assert s[..|s|] == s;
    if other > 0 {
      return false;
    }
    if digits == |s| && |s| >= 4 {
      if |s| == 4 {
        var y := Decimal(s);
        if 1900 <= y <= 2100 {
          return false;
        }
      }
      return true;
    }
    if hexish == |s| && |s| >= 12 {
      return true;
    }
    return false;
  }

  lemma OneCharMore(s: string, c: char)
    ensures AllDigits(s + [c]) <==> AllDigits(s) && IsDigit(c)
    ensures AllHex(s + [c]) <==> AllHex(s) && IsHex(c)
    ensures AllDigits(s) ==> AllHex(s)
  {
    assert (s + [c])[|s|] == c;
    assert forall i :: 0 <= i < |s| ==> (s + [c])[i] == s[i];
  }

  // ---------------------------------------------------------------------
  // Segments
  // ---------------------------------------------------------------------

  ghost predicate NoSlash(s: string) {
    forall i :: 0 <= i < |s| ==> s[i] != '/'
  }

  ghost predicate NoSlashes(segs: seq<string>) {
    forall i :: 0 <= i < |segs| ==> NoSlash(segs[i])
  }

  /** Splitting at every slash. */
  function Split(p: string): (segs: seq<string>)
    ensures segs != []
  {
    if p == "" then [""]
    else
      var before, c := Split(p[..|p| - 1]), p[|p| - 1];
      if c == '/' then before + [""]
      else before[..|before| - 1] + [before[|before| - 1] + [c]]
  }

  function Join(segs: seq<string>): string
    requires segs != []
  {
    if |segs| == 1 then segs[0] else Join(segs[..|segs| - 1]) + "/" + segs[|segs| - 1]
  }

  lemma SplitOneMore(p: string, c: char)
    ensures Split(p + [c])
            == if c == '/' then Split(p) + [""]
               else Split(p)[..|Split(p)| - 1] + [Split(p)[|Split(p)| - 1] + [c]]
  {
    assert (p + [c])[..|p|] == p;
  }

  lemma JoinOneMore(segs: seq<string>, s: string)
    requires segs != []
    ensures Join(segs + [s]) == Join(segs) + "/" + s
  {
    assert (segs + [s])[..|segs|] == segs;
  }

  lemma JoinLastLonger(segs: seq<string>, s: string, t: string)
    ensures Join(segs + [s + t]) == Join(segs + [s]) + t
  {
    if segs != [] {
      JoinOneMore(segs, s);
      JoinOneMore(segs, s + t);
      assert Join(segs) + "/" + (s + t) == Join(segs) + "/" + s + t;
    }
  }

  lemma JoinSplitMore(q: string, c: char)
    requires Join(Split(q)) == q
    ensures Join(Split(q + [c])) == q + [c]
  {
    var before := Split(q);
    SplitOneMore(q, c);
    if c == '/' {
      JoinOneMore(before, "");
    } else {
      var front, last := before[..|before| - 1], before[|before| - 1];
      assert before == front + [last];
      JoinLastLonger(front, last, [c]);
    }
  }

  lemma LastChar(p: string)
    requires p != ""
    ensures p == p[..|p| - 1] + [p[|p| - 1]]
  {
  }

  /** Joining undoes splitting. */
  lemma {:induction false} JoinSplit(p: string)
    ensures Join(Split(p)) == p
  {
    if p == "" {
      assert Split(p) == [""];
    } else {
      var q, c := p[..|p| - 1], p[|p| - 1];
      JoinSplit(q);
      LastChar(p);
      JoinSplitMore(q, c);
    }
  }

  lemma OneSegmentMore(segs: seq<string>, s: string)
    requires NoSlashes(segs) && NoSlash(s)
    ensures NoSlashes(segs + [s])
  {
  }

  lemma LastSegmentLonger(segs: seq<string>, c: char)
    requires segs != [] && NoSlashes(segs) && c != '/'
    ensures NoSlashes(segs[..|segs| - 1] + [segs[|segs| - 1] + [c]])
  {
    var k := |segs| - 1;
    assert NoSlashes(segs[..k]);
    assert NoSlash(segs[k]);
    OneSegmentMore(segs[..k], segs[k] + [c]);
  }

  lemma SplitMoreHasNoSlashes(q: string, c: char)
    requires NoSlashes(Split(q))
    ensures NoSlashes(Split(q + [c]))
  {
    SplitOneMore(q, c);
    if c == '/' {
      OneSegmentMore(Split(q), "");
    } else {
      LastSegmentLonger(Split(q), c);
    }
  }

  lemma {:induction false} SplitHasNoSlashes(p: string)
    ensures NoSlashes(Split(p))
  {
    if p == "" {
      assert Split(p) == [""];
    } else {
      var q, c := p[..|p| - 1], p[|p| - 1];
      SplitHasNoSlashes(q);
      LastChar(p);
      SplitMoreHasNoSlashes(q, c);
    }
  }

  lemma AppendAssociates(p: string, t: string, c: char)
    ensures p + (t + [c]) == p + t + [c]
  {
  }

  lemma SplitAppendMore(p: string, t: string, c: char)
    requires c != '/'
    requires Split(p + t) == Split(p)[..|Split(p)| - 1] + [Split(p)[|Split(p)| - 1] + t]
    ensures Split(p + (t + [c])) == Split(p)[..|Split(p)| - 1] + [Split(p)[|Split(p)| - 1] + (t + [c])]
  {
    AppendAssociates(p, t, c);
    SplitOneMore(p + t, c);
    AppendAssociates(Split(p)[|Split(p)| - 1], t, c);
  }

  /** A slash-free string only makes the last segment longer. */
  lemma {:induction false} SplitAppend(p: string, s: string)
    requires NoSlash(s)
    ensures Split(p + s) == Split(p)[..|Split(p)| - 1] + [Split(p)[|Split(p)| - 1] + s]
  {
    if s == "" {
      assert p + s == p;
      assert Split(p)[|Split(p)| - 1] + s == Split(p)[|Split(p)| - 1];
    } else {
      var t, c := s[..|s| - 1], s[|s| - 1];
      SplitAppend(p, t);
      SplitAppendMore(p, t, c);
      LastChar(s);
    }
  }

  lemma SplitNewSegment(p: string, s: string)
    requires NoSlash(s)
    ensures Split(p + "/" + s) == Split(p) + [s]
  {
    SplitOneMore(p, '/');
    SplitAppend(p + "/", s);
    assert Split(p + "/") == Split(p) + [""];
    assert "" + s == s;
  }

  lemma {:induction false} SplitJoin(segs: seq<string>)
    requires segs != [] && NoSlashes(segs)
    ensures Split(Join(segs)) == segs
  {
    if |segs| == 1 {
      SplitAppend("", segs[0]);
      assert "" + segs[0] == segs[0];
    } else {
      var front, last := segs[..|segs| - 1], segs[|segs| - 1];
      SplitJoin(front);
      SplitNewSegment(Join(front), last);
      assert segs == front + [last];
    }
  }

  // ---------------------------------------------------------------------
  // The stages
  // ---------------------------------------------------------------------

  function LowerChar(c: char): char {
    if 'A' <= c <= 'Z' then (c as int + 32) as char else c
  }

  function Lower(p: string): (r: string)
    ensures |r| == |p|
  {
    seq(|p|, i requires 0 <= i < |p| => LowerChar(p[i]))
  }

  function TrimSlashes(p: string): string {
    if p != "" && p[|p| - 1] == '/' then TrimSlashes(p[..|p| - 1]) else p
  }

  function TrimmedPath(q: string): string {
    if |q| > 1 then if TrimSlashes(q) == "" then "/" else TrimSlashes(q)
    else q
  }

  /** Up to the split: rooted, lower case, no trailing slash. */
  function Rooted(p: string): string {
    if p == "" then "/" else TrimmedPath(Lower(if p[0] == '/' then p else "/" + p))
  }

  const ID := ":id"

  ghost function Collapsed(s: string): string {
    if Identifier(s) then ID else s
  }

  ghost function CollapsedAll(segs: seq<string>): (r: seq<string>)
    ensures |r| == |segs|
  {
    seq(|segs|, i requires 0 <= i < |segs| => Collapsed(segs[i]))
  }

  /** The whole path with its identifiers collapsed, before it is cut to length. */
  ghost function Canonical(p: string): string {
    if p == "" then "/" else Join(CollapsedAll(Split(Rooted(p))))
  }

  ghost function Normal(p: string): string {
    var c := Canonical(p);
    if |c| > MAX_LEN then c[..MAX_LEN] else c
  }

  /** What the URL library makes of a page URL. */
  datatype Parsed = Malformed | Url(path: string)

  method NormalizePath(url: Parsed) returns (r: string)
    ensures r == if url.Url? then Normal(url.path) else "/"
  {
    if url.Malformed? {
      return "/";
    }
    var p := url.path;
    if p == "" {
      return "/";
    }
    if p[0] != '/' {
      p := "/" + p;
    }
    p := Lower(p);
    if |p| > 1 {
      p := TrimSlashes(p);
      if p == "" {
        p := "/";
      }
    }
    assert p == Rooted(url.path);
    var segs := CollapseIdentifiers(Split(p));
    p := Join(segs);
    if |p| > MAX_LEN {
      p := p[..MAX_LEN];
    }
    return p;
  }

  /** The loop over the segments. */
  method CollapseIdentifiers(segs: seq<string>) returns (r: seq<string>)
    ensures r == CollapsedAll(segs)
  {
    r := segs;
    for i := 0 to |segs|
      invariant |r| == |segs|
      invariant forall j :: 0 <= j < i ==> r[j] == Collapsed(segs[j])
      invariant forall j :: i <= j < |segs| ==> r[j] == segs[j]
    {
      var id := IsIdentifier(r[i]);
      if id {
        r := r[i := ID];
      }
    }
  }

  // ---------------------------------------------------------------------
  // What a normal path looks like
  // ---------------------------------------------------------------------

  ghost predicate IsLower(p: string) {
    forall i :: 0 <= i < |p| ==> LowerChar(p[i]) == p[i]
  }

  ghost predicate AllLower(segs: seq<string>) {
    forall i :: 0 <= i < |segs| ==> IsLower(segs[i])
  }

  lemma IdIsNoIdentifier()
    ensures !Identifier(ID) && NoSlash(ID) && IsLower(ID) && |ID| == 3
  {
    assert !IsDigit(ID[0]) && !IsHex(ID[0]);
  }

  lemma IdentifiersAreLonger(s: string)
    requires Identifier(s)
    ensures |s| > |ID|
  {
  }

  lemma {:induction false} TrimmedIsShorter(p: string)
    ensures |TrimSlashes(p)| <= |p|
    ensures p != "" && p[|p| - 1] == '/' ==> |TrimSlashes(p)| < |p|
    ensures TrimSlashes(p) == p[..|TrimSlashes(p)|]
    ensures TrimSlashes(p) != "" ==> TrimSlashes(p)[|TrimSlashes(p)| - 1] != '/'
  {
    if p != "" && p[|p| - 1] == '/' {
      TrimmedIsShorter(p[..|p| - 1]);
    }
  }

  lemma RootedShape(p: string)
    requires p != ""
    ensures var q := Rooted(p);
            && q != "" && q[0] == '/' && IsLower(q)
            && (|q| > 1 ==> q[|q| - 1] != '/')
  {
    var q := Lower(if p[0] == '/' then p else "/" + p);
    TrimmedIsShorter(q);
  }

  /** A path that is rooted already only loses trailing slashes. */
  lemma RootedAgain(q: string)
    requires q != "" && q[0] == '/' && IsLower(q)
    ensures Rooted(q) == TrimmedPath(q)
  {
    var l := Lower(q);
    assert forall i :: 0 <= i < |q| ==> l[i] == q[i];
    assert l == q;
  }

  lemma {:induction false} SplitIsLower(p: string)
    requires IsLower(p)
    ensures AllLower(Split(p))
  {
    if p != "" {
      assert IsLower(p[..|p| - 1]);
      SplitIsLower(p[..|p| - 1]);
    }
  }

  lemma {:induction false} JoinIsLower(segs: seq<string>)
    requires segs != [] && AllLower(segs)
    ensures IsLower(Join(segs))
  {
    if |segs| > 1 {
      JoinIsLower(segs[..|segs| - 1]);
    }
  }

  lemma {:induction false} SplitOfRooted(q: string)
    requires q != "" && q[0] == '/'
    ensures |Split(q)| > 1 && Split(q)[0] == ""
    ensures |q| > 1 && q[|q| - 1] != '/' ==> Split(q)[|Split(q)| - 1] != ""
  {
    if |q| > 1 {
      SplitOfRooted(q[..|q| - 1]);
      assert q == q[..|q| - 1] + [q[|q| - 1]];
    } else {
      assert q == "" + ['/'];
      SplitOneMore("", '/');
    }
  }

  lemma {:induction false} JoinStartsWithRoot(segs: seq<string>)
    requires |segs| > 1 && segs[0] == ""
    ensures Join(segs) != "" && Join(segs)[0] == '/'
  {
    if |segs| > 2 {
      JoinStartsWithRoot(segs[..|segs| - 1]);
    } else {
      assert Join(segs[..1]) == "";
    }
  }

  lemma JoinEndsWithLast(segs: seq<string>)
    requires |segs| > 1 && segs[|segs| - 1] != "" && NoSlashes(segs)
    ensures Join(segs)[|Join(segs)| - 1] != '/'
  {
    var last := segs[|segs| - 1];
    assert Join(segs)[|Join(segs)| - 1] == last[|last| - 1];
  }

  ghost predicate NoIdentifiers(segs: seq<string>) {
    forall i :: 0 <= i < |segs| ==> !Identifier(segs[i])
  }

  lemma CollapsedShape(segs: seq<string>)
    requires NoSlashes(segs) && AllLower(segs)
    ensures NoSlashes(CollapsedAll(segs)) && AllLower(CollapsedAll(segs)) && NoIdentifiers(CollapsedAll(segs))
    ensures forall i :: 0 <= i < |segs| ==> (segs[i] == "" <==> CollapsedAll(segs)[i] == "")
  {
    IdIsNoIdentifier();
  }

  ghost predicate Shapely(c: string) {
    && c != "" && c[0] == '/' && IsLower(c)
    && NoIdentifiers(Split(c))
    && (|c| > 1 ==> c[|c| - 1] != '/')
  }

  lemma RootIsShapely()
    ensures Split("/") == ["", ""] && Join(["", ""]) == "/" && Shapely("/")
  {
    SplitOneMore("", '/');
    assert "" + ['/'] == "/";
    JoinOneMore([""], "");
    assert [""] + [""] == ["", ""];
  }

  lemma CollapsedIsShapely(q: string)
    requires |q| > 1 && q[0] == '/' && IsLower(q) && q[|q| - 1] != '/'
    ensures Shapely(Join(CollapsedAll(Split(q))))
  {
    SplitHasNoSlashes(q);
    SplitIsLower(q);
    SplitOfRooted(q);
    var segs := CollapsedAll(Split(q));
    CollapsedShape(Split(q));
    SplitJoin(segs);
    JoinIsLower(segs);
    JoinStartsWithRoot(segs);
    JoinEndsWithLast(segs);
  }

  /** The collapsed path: rooted, lower case, without identifiers, and without
      a trailing slash but the root's own. */
  lemma CanonicalShape(p: string)
    ensures Shapely(Canonical(p))
  {
    RootIsShapely();
    if p != "" {
      RootedShape(p);
      if |Rooted(p)| > 1 {
        CollapsedIsShapely(Rooted(p));
      } else {
        assert Rooted(p) == "/";
        CollapsedShape(["", ""]);
        assert CollapsedAll(["", ""]) == ["", ""];
      }
    }
  }

  /** On any path the result is rooted and fits the bound, and unless it was cut
      to length it has no identifier left and no trailing slash but the root's. */
  lemma NormalShape(p: string)
    ensures var r := Normal(p);
            && 1 <= |r| <= 128 && r[0] == '/' && IsLower(r)
            && (|Canonical(p)| <= 128 ==> NoIdentifiers(Split(r)) && (|r| > 1 ==> r[|r| - 1] != '/'))
  {
    CanonicalShape(p);
  }

  /** The result is the canonical path, or its first 128 bytes. */
  lemma NormalIsAPrefix(p: string)
    ensures |Normal(p)| == if |Canonical(p)| > 128 then 128 else |Canonical(p)|
    ensures Normal(p) == Canonical(p)[..|Normal(p)|]
  {
  }

  lemma CollapsedBySight(s: string)
    ensures Identifier(s) ==> |Collapsed(s)| == 3 && Collapsed(s)[0] == ':' && Collapsed(s)[1] == 'i' && Collapsed(s)[2] == 'd'
    ensures !Identifier(s) ==> Collapsed(s) == s
  {
  }

  // ---------------------------------------------------------------------
  // Normalising twice
  // ---------------------------------------------------------------------

  lemma {:induction false} CollapsingShortens(segs: seq<string>)
    requires segs != []
    ensures |Join(CollapsedAll(segs))| <= |Join(segs)|
    ensures !NoIdentifiers(segs) ==> |Join(CollapsedAll(segs))| < |Join(segs)|
    ensures NoIdentifiers(segs) ==> CollapsedAll(segs) == segs
  {
    var front, last := segs[..|segs| - 1], segs[|segs| - 1];
    if Identifier(last) {
      IdentifiersAreLonger(last);
    }
    if |segs| > 1 {
      CollapsingShortens(front);
      assert CollapsedAll(segs)[..|segs| - 1] == CollapsedAll(front);
    }
  }

  /** Cutting a path short changes no segment but the last one left. */
  lemma {:induction false} CuttingKeepsFront(c: string, k: nat)
    requires k <= |c| && NoIdentifiers(Split(c))
    ensures var segs := Split(c[..k]); NoIdentifiers(segs[..|segs| - 1])
    decreases |c| - k
  {
    if k == |c| {
      assert c[..k] == c;
    } else {
      CuttingKeepsFront(c, k + 1);
      assert c[..k + 1] == c[..k] + [c[k]];
      SplitOneMore(c[..k], c[k]);
      var segs, longer := Split(c[..k]), Split(c[..k + 1]);
      assert forall i :: 0 <= i < |segs| - 1 ==> longer[i] == segs[i] && i < |longer| - 1;
    }
  }

  ghost predicate EndsWell(r: string)
    requires r != ""
  {
    && (|r| > 1 ==> r[|r| - 1] != '/')
    && !Identifier(Split(r)[|Split(r)| - 1])
  }

  /** Whether the cut, if there is one, falls neither behind a slash nor behind
      something that looks like an identifier. */
  ghost predicate CutsWell(canonical: string) {
    |canonical| > MAX_LEN ==> EndsWell(canonical[..MAX_LEN])
  }

  /** Normalising again changes nothing if and only if the path was cut well. */
  lemma NormalisingTwice(p: string)
    ensures Normal(Normal(p)) == Normal(p) <==> CutsWell(Canonical(p))
  {
    var c, r := Canonical(p), Normal(p);
    CanonicalShape(p);
    CuttingKeepsFront(c, |r|);
    assert c[..|c|] == c;
    assert r == c[..|r|];
    NormalisingRooted(r);
  }

  lemma TrailingSlashGoes(r: string)
    requires 1 < |r| <= MAX_LEN && r[0] == '/' && IsLower(r) && r[|r| - 1] == '/'
    ensures |Normal(r)| < |r|
  {
    RootedAgain(r);
    TrimmedIsShorter(r);
    JoinSplit(Rooted(r));
    CollapsingShortens(Split(Rooted(r)));
  }

  lemma TrailingIdentifierGoes(r: string)
    requires 1 <= |r| <= MAX_LEN && r[0] == '/' && IsLower(r) && (|r| > 1 ==> r[|r| - 1] != '/')
    ensures Normal(r) == r <==> NoIdentifiers(Split(r))
  {
    RootedAgain(r);
    JoinSplit(r);
    CollapsingShortens(Split(r));
  }

  lemma LastIsTheOnlySuspect(segs: seq<string>)
    requires segs != [] && NoIdentifiers(segs[..|segs| - 1])
    ensures NoIdentifiers(segs) <==> !Identifier(segs[|segs| - 1])
  {
    assert forall i :: 0 <= i < |segs| - 1 ==> segs[..|segs| - 1][i] == segs[i];
  }

  lemma NormalisingRooted(r: string)
    requires 1 <= |r| <= MAX_LEN && r[0] == '/' && IsLower(r)
    requires var segs := Split(r); NoIdentifiers(segs[..|segs| - 1])
    ensures Normal(r) == r <==> EndsWell(r)
  {
    if |r| > 1 && r[|r| - 1] == '/' {
      TrailingSlashGoes(r);
    } else {
      TrailingIdentifierGoes(r);
      LastIsTheOnlySuspect(Split(r));
    }
  }

  lemma JoinedIsRooted(a: seq<string>)
    requires |a| > 1 && a[0] == "" && NoSlashes(a) && AllLower(a) && a[|a| - 1] != ""
    ensures Canonical(Join(a)) == Join(CollapsedAll(a))
  {
    JoinStartsWithRoot(a);
    JoinEndsWithLast(a);
    JoinIsLower(a);
    RootedAgain(Join(a));
    SplitJoin(a);
  }

  // ---------------------------------------------------------------------
  // By sight
  // ---------------------------------------------------------------------

  ghost predicate OfDigits(s: string) {
    forall i :: 0 <= i < |s| ==> '0' <= s[i] <= '9'
  }

  ghost predicate OfHexDigits(s: string) {
    forall i :: 0 <= i < |s| ==> '0' <= s[i] <= '9' || 'a' <= s[i] <= 'f' || 'A' <= s[i] <= 'F'
  }

  /** Four digits that read as a year of the twentieth or twenty-first century,
      or as 2100. */
  ghost predicate LooksLikeYear(s: string) {
    && |s| == 4
    && ((s[0] == '1' && s[1] == '9') || (s[0] == '2' && s[1] == '0')
        || (s[0] == '2' && s[1] == '1' && s[2] == '0' && s[3] == '0'))
  }

  /** Groups of 8, 4, 4, 4 and 12 hex digits with a dash between them. */
  ghost predicate InUuidGroups(s: string) {
    && |s| == 36
    && OfHexDigits(s[..8]) && s[8] == '-'
    && OfHexDigits(s[9..13]) && s[13] == '-'
    && OfHexDigits(s[14..18]) && s[18] == '-'
    && OfHexDigits(s[19..23]) && s[23] == '-'
    && OfHexDigits(s[24..])
  }

  lemma GroupOfHex(s: string, i: nat, j: nat)
    requires i <= j <= |s|
    ensures OfHexDigits(s[i..j]) <==> forall k :: i <= k < j ==> IsHex(s[k])
  {
    assert forall k :: i <= k < j ==> s[i..j][k - i] == s[k];
    if OfHexDigits(s[i..j]) {
      forall k | i <= k < j
        ensures IsHex(s[k])
      {
        assert s[i..j][k - i] == s[k];
      }
    }
  }

  lemma UuidsAreGroups(s: string)
    ensures IsUuid(s) <==> InUuidGroups(s)
  {
    if |s| == 36 {
      assert s[..8] == s[0..8] && s[24..] == s[24..36];
      GroupOfHex(s, 0, 8);
      GroupOfHex(s, 9, 13);
      GroupOfHex(s, 14, 18);
      GroupOfHex(s, 19, 23);
      GroupOfHex(s, 24, 36);
    }
  }

  lemma DecimalOneMore(s: string, c: char)
    requires '0' <= c <= '9'
    ensures Decimal(s + [c]) == 10 * Decimal(s) + (c as int - '0' as int)
  {
    assert (s + [c])[..|s|] == s;
  }

  lemma DecimalOfTwo(a: char, b: char)
    requires '0' <= a <= '9' && '0' <= b <= '9'
    ensures Decimal("" + [a] + [b]) == 10 * (a as int - '0' as int) + (b as int - '0' as int)
  {
    DecimalOneMore("", a);
    DecimalOneMore("" + [a], b);
  }

  lemma DecimalOfFour(a: char, b: char, c: char, d: char)
    requires '0' <= a <= '9' && '0' <= b <= '9' && '0' <= c <= '9' && '0' <= d <= '9'
    ensures var zero := '0' as int;
            Decimal("" + [a] + [b] + [c] + [d])
            == 100 * (10 * (a as int - zero) + (b as int - zero)) + 10 * (c as int - zero) + (d as int - zero)
  {
    DecimalOfTwo(a, b);
    DecimalOneMore("" + [a] + [b], c);
    DecimalOneMore("" + [a] + [b] + [c], d);
  }

  lemma FourChars(s: string)
    requires |s| == 4
    ensures s == "" + [s[0]] + [s[1]] + [s[2]] + [s[3]]
  {
  }

  lemma YearsBySight(s: string)
    requires |s| == 4 && OfDigits(s)
    ensures IsYear(s) <==> LooksLikeYear(s)
  {
    FourChars(s);
    DecimalOfFour(s[0], s[1], s[2], s[3]);
  }

  /** What is an identifier, by its characters: a UUID in its groups, four digits
      or more that do not look like a year, or twelve hex digits or more. */
  lemma IdentifiersBySight(s: string)
    ensures Identifier(s)
            <==> || InUuidGroups(s)
                 || (OfDigits(s) && |s| >= 4 && !LooksLikeYear(s))
                 || (OfHexDigits(s) && |s| >= 12)
  {
    UuidsAreGroups(s);
    assert AllDigits(s) <==> OfDigits(s);
    assert AllHex(s) <==> OfHexDigits(s);
    if |s| == 4 && OfDigits(s) {
      YearsBySight(s);
    }
  }

  /** A four-digit segment is a route, and not an identifier, if and only if it
      starts with 19 or 20 or is 2100. */
  lemma FourDigitsBySight(s: string)
    requires |s| == 4 && OfDigits(s)
    ensures !Identifier(s)
            <==> (s[0] == '1' && s[1] == '9') || (s[0] == '2' && s[1] == '0') || s == ['2', '1', '0', '0']
  {
    IdentifiersBySight(s);
  }

  /** The lower case of a byte: of the 26 capitals their small letters, of
      everything else the byte itself. */
  lemma LowerBySight(c: char)
    ensures c == 'A' ==> LowerChar(c) == 'a'
    ensures c == 'M' ==> LowerChar(c) == 'm'
    ensures c == 'Z' ==> LowerChar(c) == 'z'
    ensures 'A' <= c <= 'Z' <==> LowerChar(c) != c
    ensures 'A' <= c < 'Z' ==> LowerChar((c as int + 1) as char) as int == LowerChar(c) as int + 1
  {
  }

  // ---------------------------------------------------------------------
  // Cuts that show
  // ---------------------------------------------------------------------

  function Repeated(c: char, n: nat): (s: string)
    ensures |s| == n && forall i :: 0 <= i < n ==> s[i] == c
  {
    seq(n, _ => c)
  }

  lemma NotHexNotIdentifier(s: string, i: nat)
    requires i < |s| && !IsHex(s[i]) && s[i] != '-'
    ensures !Identifier(s)
  {
  }

  lemma JoinOfThree(a: string, b: string)
    ensures Join(["", a, b]) == "/" + a + "/" + b
  {
    JoinOneMore([""], a);
    JoinOneMore(["", a], b);
    assert [""] + [a] == ["", a] && ["", a] + [b] == ["", a, b];
    assert Join([""]) + "/" == "/";
  }

  /** Plain segments are canonical as they are. */
  lemma PlainSegmentsAreCanonical(segs: seq<string>)
    requires |segs| > 1 && segs[0] == "" && segs[|segs| - 1] != ""
    requires NoSlashes(segs) && AllLower(segs) && NoIdentifiers(segs)
    ensures Canonical(Join(segs)) == Join(segs)
  {
    JoinedIsRooted(segs);
    assert CollapsedAll(segs) == segs;
  }

  ghost predicate Plain(s: string) {
    NoSlash(s) && IsLower(s) && !Identifier(s)
  }

  lemma PlainPathIsCanonical(a: string, b: string)
    requires b != "" && Plain(a) && Plain(b)
    ensures Canonical("/" + a + "/" + b) == "/" + a + "/" + b
  {
    assert Plain("");
    JoinOfThree(a, b);
    PlainSegmentsAreCanonical(["", a, b]);
  }

  /** A cut that falls behind a slash or an identifier shows. */
  lemma BadCutShows(p: string)
    requires Canonical(p) == p && |p| > MAX_LEN && !EndsWell(p[..MAX_LEN])
    ensures Normal(p) == p[..MAX_LEN] && Normal(Normal(p)) != Normal(p)
  {
    NormalisingTwice(p);
  }

  lemma EndsInSlash(a: string)
    requires a != ""
    ensures !EndsWell("/" + a + "/")
  {
    var r := "/" + a + "/";
    assert r[|r| - 1] == '/';
  }

  lemma EndsInIdentifier(a: string, id: string)
    requires NoSlash(id) && Identifier(id)
    ensures !EndsWell("/" + a + "/" + id)
  {
    SplitNewSegment("/" + a, id);
  }

  /** A short path of plain segments stays as it is. */
  lemma PlainPathsStay(segs: seq<string>)
    requires |segs| > 1 && segs[0] == "" && segs[|segs| - 1] != ""
    requires NoSlashes(segs) && AllLower(segs) && NoIdentifiers(segs) && |Join(segs)| <= 128
    ensures Normal(Join(segs)) == Join(segs)
  {
    PlainSegmentsAreCanonical(segs);
  }

  /** So do years: a path like /blog/2019 is a route. */
  lemma YearPathsStay(a: string, year: string)
    requires Plain(a) && |a| <= 122
    requires OfDigits(year) && LooksLikeYear(year)
    ensures Normal("/" + a + "/" + year) == "/" + a + "/" + year
  {
    FourDigitsBySight(year);
    assert Plain(year);
    PlainPathIsCanonical(a, year);
  }

  /** An identifier becomes `:id`: /users/8f3a... is /users/:id. */
  lemma IdentifierPathsCollapse(a: string, id: string)
    requires Plain(a) && |a| <= 122 && NoSlash(id) && IsLower(id) && Identifier(id)
    ensures Normal("/" + a + "/" + id) == "/" + a + "/" + ":id"
  {
    JoinOfThree(a, id);
    JoinOfThree(a, ID);
    ThreeSegments(a, id);
    JoinedIsRooted(["", a, id]);
  }

  lemma ThreeSegments(a: string, id: string)
    requires Plain(a) && NoSlash(id) && IsLower(id) && Identifier(id)
    ensures NoSlashes(["", a, id]) && AllLower(["", a, id]) && id != ""
    ensures CollapsedAll(["", a, id]) == ["", a, ID]
  {
    assert Plain("");
    assert Collapsed("") == "" && Collapsed(a) == a && Collapsed(id) == ID;
  }

  lemma CutAfter(p: string, q: string, r: string)
    requires p == q + r
    ensures p[..|q|] == q
  {
  }

  /** A path cut behind a slash. */
  lemma CutBehindSlash(a: string, b: string)
    requires |a| == 126 && b != "" && Plain(a) && Plain(b)
    ensures var p := "/" + a + "/" + b;
            Normal(p) == "/" + a + "/" && Normal(Normal(p)) != Normal(p)
  {
    PlainPathIsCanonical(a, b);
    CutAfter("/" + a + "/" + b, "/" + a + "/", b);
    EndsInSlash(a);
    BadCutShows("/" + a + "/" + b);
  }

  lemma Regroup(a: string, id: string, b: string)
    ensures "/" + a + "/" + (id + b) == "/" + a + "/" + id + b
  {
  }

  /** A path cut inside a segment that begins like an identifier. */
  lemma CutBehindIdentifier(a: string, id: string, b: string)
    requires |a| + |id| == 126 && b != "" && Plain(a) && Plain(id + b) && NoSlash(id) && Identifier(id)
    ensures var p := "/" + a + "/" + (id + b);
            Normal(p) == "/" + a + "/" + id && Normal(Normal(p)) != Normal(p)
  {
    PlainPathIsCanonical(a, id + b);
    Regroup(a, id, b);
    CutAfter("/" + a + "/" + (id + b), "/" + a + "/" + id, b);
    EndsInIdentifier(a, id);
    BadCutShows("/" + a + "/" + (id + b));
  }

  lemma RepeatedIsPlain(c: char, n: nat)
    requires n > 0 && LowerChar(c) == c && !IsHex(c) && c != '-' && c != '/'
    ensures Plain(Repeated(c, n))
  {
    NotHexNotIdentifier(Repeated(c, n), 0);
  }

  /** There are segments as `CutBehindSlash` asks for. */
  lemma SlashCutExists() returns (a: string, b: string)
    ensures |a| == 126 && b != "" && Plain(a) && Plain(b)
  {
    a, b := Repeated('g', 126), Repeated('x', 1);
    RepeatedIsPlain('g', 126);
    RepeatedIsPlain('x', 1);
  }

  /** There are segments as `CutBehindIdentifier` asks for. */
  lemma IdentifierCutExists() returns (a: string, id: string, b: string)
    ensures |a| + |id| == 126 && b != "" && Plain(a) && Plain(id + b) && NoSlash(id) && Identifier(id)
  {
    a, id, b := Repeated('g', 114), Repeated('a', 12), Repeated('x', 1);
    RepeatedIsPlain('g', 114);
    assert (id + b)[12] == 'x';
    NotHexNotIdentifier(id + b, 12);
    assert AllHex(id);
  }

  // ---------------------------------------------------------------------
  // Labels
  // ---------------------------------------------------------------------

  function LoweredAll(segs: seq<string>): (r: seq<string>)
    ensures |r| == |segs|
  {
    seq(|segs|, i requires 0 <= i < |segs| => Lower(segs[i]))
  }

  lemma LowerAdds(p: string, q: string)
    ensures Lower(p + q) == Lower(p) + Lower(q)
  {
  }

  lemma {:induction false} LowerOfJoin(segs: seq<string>)
    requires segs != []
    ensures Lower(Join(segs)) == Join(LoweredAll(segs))
  {
    if |segs| > 1 {
      var front, last := segs[..|segs| - 1], segs[|segs| - 1];
      LowerOfJoin(front);
      LowerAdds(Join(front) + "/", last);
      LowerAdds(Join(front), "/");
      assert Lower("/") == "/";
      assert LoweredAll(segs)[..|segs| - 1] == LoweredAll(front);
    }
  }

  lemma LowerKeepsShapes(s: string)
    ensures AllDigits(Lower(s)) <==> AllDigits(s)
    ensures AllHex(Lower(s)) <==> AllHex(s)
    ensures AllDigits(s) ==> Lower(s) == s
  {
    forall i | 0 <= i < |s|
      ensures IsDigit(Lower(s)[i]) <==> IsDigit(s[i])
      ensures IsHex(Lower(s)[i]) <==> IsHex(s[i])
    {
    }
  }

  lemma LowerKeepsUuids(s: string)
    ensures IsUuid(Lower(s)) <==> IsUuid(s)
  {
    forall i | 0 <= i < |s|
      ensures Lower(s)[i] == '-' <==> s[i] == '-'
      ensures IsHex(Lower(s)[i]) <==> IsHex(s[i])
    {
    }
  }

  /** Upper-case identifiers are identifiers, and lowering makes no new ones. */
  lemma LowerKeepsIdentifiers(s: string)
    ensures Identifier(Lower(s)) <==> Identifier(s)
  {
    LowerKeepsUuids(s);
    LowerKeepsShapes(s);
  }

  /** Without the empty segments at the end, but for the first segment. */
  function Trimmed(segs: seq<string>): (r: seq<string>)
    ensures |r| <= |segs| && r == segs[..|r|]
    ensures segs != [] ==> r != []
    ensures |r| > 1 ==> r[|r| - 1] != ""
  {
    if |segs| > 1 && segs[|segs| - 1] == "" then Trimmed(segs[..|segs| - 1]) else segs
  }

  lemma {:induction false} TrimsLastSegments(segs: seq<string>)
    requires segs != [] && NoSlashes(segs)
    ensures TrimSlashes(Join(segs)) == Join(Trimmed(segs))
  {
    var k := |segs| - 1;
    if k > 0 && segs[k] == "" {
      TrimsLastSegments(segs[..k]);
      LosesLastSlash(Join(segs[..k]));
      assert Join(segs) == Join(segs[..k]) + "/";
    } else if k > 0 {
      JoinEndsWithLast(segs);
    }
  }

  lemma LosesLastSlash(p: string)
    ensures TrimSlashes(p + "/") == TrimSlashes(p)
  {
    assert (p + "/")[..|p|] == p;
  }

  lemma {:induction false} CollapsingKeepsEmpty(segs: seq<string>)
    ensures CollapsedAll(Trimmed(segs)) == Trimmed(CollapsedAll(segs))
  {
    var k := |segs| - 1;
    if k > 0 && segs[k] == "" {
      CollapsingKeepsEmpty(segs[..k]);
      assert CollapsedAll(segs)[..k] == CollapsedAll(segs[..k]);
    }
  }

  /** The segments of a path with a slash in front if there was none. */
  function WithRoot(segs: seq<string>): (r: seq<string>)
    requires segs != []
    ensures r != [] && r[0] == ""
  {
    if segs[0] == "" then segs else [""] + segs
  }

  lemma {:induction false} JoinWithEmptyFirst(segs: seq<string>)
    requires segs != []
    ensures Join([""] + segs) == "/" + Join(segs)
  {
    var k := |segs| - 1;
    assert ([""] + segs)[..k + 1] == [""] + segs[..k];
    if k == 0 {
      assert [""] + segs[..0] == [""];
      assert "" + "/" == "/";
    } else {
      JoinWithEmptyFirst(segs[..k]);
    }
  }

  lemma {:induction false} JoinStartsWithFirst(segs: seq<string>)
    requires segs != [] && segs[0] != ""
    ensures Join(segs) != "" && Join(segs)[0] == segs[0][0]
  {
    if |segs| > 1 {
      JoinStartsWithFirst(segs[..|segs| - 1]);
    }
  }

  lemma RootGoesFirst(segs: seq<string>)
    requires segs != [] && NoSlashes(segs) && Join(segs) != ""
    ensures |WithRoot(segs)| > 1
    ensures (if Join(segs)[0] == '/' then Join(segs) else "/" + Join(segs)) == Join(WithRoot(segs))
  {
    if segs[0] == "" {
      JoinStartsWithRoot(segs);
    } else {
      JoinStartsWithFirst(segs);
      JoinWithEmptyFirst(segs);
    }
  }

  lemma LoweredShape(segs: seq<string>)
    requires NoSlashes(segs)
    ensures NoSlashes(LoweredAll(segs)) && AllLower(LoweredAll(segs))
    ensures forall i :: 0 <= i < |segs| ==> (LoweredAll(segs)[i] == "" <==> segs[i] == "")
  {
    forall i, j | 0 <= i < |segs| && 0 <= j < |segs[i]|
      ensures LoweredAll(segs)[i][j] != '/'
      ensures LowerChar(LoweredAll(segs)[i][j]) == LoweredAll(segs)[i][j]
    {
      assert segs[i][j] != '/';
    }
  }

  /** A path as its segments, before the empty ones at the end go. */
  ghost function Segments(p: string): seq<string> {
    CollapsedAll(LoweredAll(WithRoot(Split(p))))
  }

  lemma TrimmedIsEmptyOrRooted(segs: seq<string>)
    requires |segs| > 1 && segs[0] == ""
    ensures Trimmed(segs) == [""] <==> Join(Trimmed(segs)) == ""
    ensures Join(segs) != "" && (|Join(segs)| == 1 ==> Trimmed(segs) == [""])
  {
    JoinStartsWithRoot(segs);
    if |Trimmed(segs)| > 1 {
      JoinStartsWithRoot(Trimmed(segs));
      assert Join(Trimmed(segs)) != "";
    }
  }

  lemma TrimmedBySegments(segs: seq<string>)
    requires |segs| > 1 && segs[0] == "" && NoSlashes(segs)
    ensures TrimmedPath(Join(segs)) == if Trimmed(segs) == [""] then "/" else Join(Trimmed(segs))
  {
    JoinStartsWithRoot(segs);
    TrimsLastSegments(segs);
    TrimmedIsEmptyOrRooted(segs);
    if |Join(segs)| == 1 {
      assert Join(segs) == "/";
    }
  }

  lemma RootedBySegments(p: string)
    requires p != ""
    ensures var segs := Trimmed(LoweredAll(WithRoot(Split(p))));
            Rooted(p) == if segs == [""] then "/" else Join(segs)
  {
    JoinSplit(p);
    SplitHasNoSlashes(p);
    var rooted := WithRoot(Split(p));
    RootGoesFirst(Split(p));
    LowerOfJoin(rooted);
    LoweredShape(rooted);
    TrimmedBySegments(LoweredAll(rooted));
  }

  lemma RootIsCanonical()
    ensures Join(CollapsedAll(Split("/"))) == "/" && CollapsedAll([""]) == [""]
  {
    RootIsShapely();
    assert CollapsedAll(["", ""]) == ["", ""];
  }

  lemma CanonicalOf(segs: seq<string>, t: seq<string>)
    requires |segs| > 0 && segs[0] == "" && NoSlashes(segs) && t == Trimmed(segs)
    ensures Join(CollapsedAll(Split(if t == [""] then "/" else Join(t))))
            == if CollapsedAll(t) == [""] then "/" else Join(CollapsedAll(t))
  {
    RootIsCanonical();
    if t != [""] {
      SplitJoin(t);
      assert |t| > 1;
    }
  }

  /** The canonical form of a path in terms of its segments. */
  lemma CanonicalBySegments(p: string)
    ensures Canonical(p) == if Trimmed(Segments(p)) == [""] then "/" else Join(Trimmed(Segments(p)))
  {
    SplitHasNoSlashes(p);
    var segs := LoweredAll(WithRoot(Split(p)));
    CollapsingKeepsEmpty(segs);
    if p == "" {
      RootIsCanonical();
      assert Split(p) == [""];
      assert segs == [""];
    } else {
      RootedBySegments(p);
      LoweredShape(WithRoot(Split(p)));
      CanonicalOf(segs, Trimmed(segs));
    }
  }

  /** Segments that differ only in case, or are both identifiers. */
  ghost predicate LookAlike(s: string, t: string) {
    Lower(s) == Lower(t) || (Identifier(s) && Identifier(t))
  }

  ghost predicate AllAlike(a: seq<string>, b: seq<string>) {
    |a| == |b| && forall i :: 0 <= i < |a| ==> LookAlike(a[i], b[i])
  }

  lemma RootedAlike(a: seq<string>, b: seq<string>)
    requires a != [] && AllAlike(a, b)
    ensures AllAlike(WithRoot(a), WithRoot(b))
  {
    assert LookAlike(a[0], b[0]);
    assert a[0] == "" <==> b[0] == "" by {
      assert |Lower(a[0])| == |a[0]| && |Lower(b[0])| == |b[0]|;
    }
  }

  lemma AlikeCollapseAlike(a: seq<string>, b: seq<string>)
    requires AllAlike(a, b)
    ensures CollapsedAll(LoweredAll(a)) == CollapsedAll(LoweredAll(b))
  {
    forall i | 0 <= i < |a|
      ensures Collapsed(Lower(a[i])) == Collapsed(Lower(b[i]))
    {
      LowerKeepsIdentifiers(a[i]);
      LowerKeepsIdentifiers(b[i]);
    }
  }

  /** Paths whose segments differ only in case and in their identifiers share
      one label. */
  lemma IdentifiersShareALabel(p: string, q: string)
    requires AllAlike(Split(p), Split(q))
    ensures Normal(p) == Normal(q)
  {
    RootedAlike(Split(p), Split(q));
    AlikeCollapseAlike(WithRoot(Split(p)), WithRoot(Split(q)));
    CanonicalBySegments(p);
    CanonicalBySegments(q);
  }
}
