/** Screens: the largest common mode for mirroring, the preferred mode, and extended placement. */
module Displays {
  import opened Basics

  datatype Mode = Mode(width: nat, height: nat)

  function Area(m: Mode): nat {
    m.width * m.height
  }

  // ----------------------------------------------------------- sort, sort -u, uniq -c

  /** The collating order of sort(1), whatever the locale: any total order on the mode names. */
  ghost predicate TotalOrder(le: (Mode, Mode) -> bool) {
    && (forall a, b :: le(a, b) || le(b, a))
    && (forall a, b :: le(a, b) && le(b, a) ==> a == b)
    && (forall a, b, c :: le(a, b) && le(b, c) ==> le(a, c))
  }

  function Insert(le: (Mode, Mode) -> bool, m: Mode, s: seq<Mode>): seq<Mode> {
    if s == [] || le(m, s[0]) then [m] + s else [s[0]] + Insert(le, m, s[1..])
  }

  function Sort(le: (Mode, Mode) -> bool, s: seq<Mode>): seq<Mode> {
    if s == [] then [] else Insert(le, s[0], Sort(le, s[1..]))
  }

  /** sort -u: equal neighbours of the sorted list collapse. */
  function Collapse(s: seq<Mode>): seq<Mode> {
    if |s| < 2 then s
    else if s[0] == s[1] then Collapse(s[1..])
    else [s[0]] + Collapse(s[1..])
  }

  /** A line of uniq -c. */
  datatype Count = Count(count: nat, mode: Mode)

  /** uniq -c: a run of equal neighbours becomes one line. */
  function Counted(s: seq<Mode>): seq<Count> {
    if s == [] then []
    else
      var rest := Counted(s[1..]);
      if rest != [] && rest[0].mode == s[0] then [Count(rest[0].count + 1, s[0])] + rest[1..]
      else [Count(1, s[0])] + rest
  }

  /** The modes whose count is n, in order. */
  function CountedTimes(n: nat, rs: seq<Count>): seq<Mode> {
    if rs == [] then []
    else (if rs[0].count == n then [rs[0].mode] else []) + CountedTimes(n, rs[1..])
  }

  ghost predicate Sorted(le: (Mode, Mode) -> bool, s: seq<Mode>) {
    forall i, j :: 0 <= i < j < |s| ==> le(s[i], s[j])
  }

  function ModesOf(le: (Mode, Mode) -> bool, screens: seq<seq<Mode>>): seq<Mode> {
    if screens == [] then [] else Collapse(Sort(le, screens[0])) + ModesOf(le, screens[1..])
  }

  /** The modes that reach the last awk, in sorted order. */
  function Shared(le: (Mode, Mode) -> bool, screens: seq<seq<Mode>>): seq<Mode> {
    CountedTimes(|screens|, Counted(Sort(le, ModesOf(le, screens))))
  }

  ghost predicate FirstAt(lines: seq<Mode>, k: int, m: Mode)
    requires 0 <= k < |lines|
  {
    lines[k] == m && forall i :: 0 <= i < k ==> Area(lines[i]) < Area(m)
  }

  /** The last awk: the first mode with the largest area, nothing when no area is positive. */
  method LargestArea(lines: seq<Mode>) returns (r: Option<Mode>)
    ensures r.None? <==> forall i :: 0 <= i < |lines| ==> Area(lines[i]) == 0
    ensures r.Some? ==> Area(r.value) > 0 && forall i :: 0 <= i < |lines| ==> Area(lines[i]) <= Area(r.value)
    ensures r.Some? ==> exists k :: 0 <= k < |lines| && FirstAt(lines, k, r.value)
  {
    var best, k := 0, 0;
    r := None;
    for i := 0 to |lines|
      invariant best == if r.Some? then Area(r.value) else 0
      invariant forall j :: 0 <= j < i ==> Area(lines[j]) <= best
      invariant r.Some? ==> best > 0 && k < i && FirstAt(lines, k, r.value)
    {
      var a := Area(lines[i]);
      if a > best {
        best, k, r := a, i, Some(lines[i]);
      }
    }
  }

  ghost predicate OnEveryScreen(screens: seq<seq<Mode>>, m: Mode) {
    forall i :: 0 <= i < |screens| ==> m in screens[i]
  }

  /** common_mode: a largest mode that every screen has, the first of them in sorting order; none exactly
    * when no shared mode has a positive area. */
  method CommonMode(le: (Mode, Mode) -> bool, screens: seq<seq<Mode>>) returns (r: Option<Mode>)
    requires TotalOrder(le)
    ensures screens == [] ==> r.None?
    ensures screens != [] ==> (r.None? <==> forall m :: OnEveryScreen(screens, m) ==> Area(m) == 0)
    ensures r.Some? ==> OnEveryScreen(screens, r.value) && Area(r.value) > 0
    ensures r.Some? ==> forall m :: OnEveryScreen(screens, m) ==>
      Area(m) < Area(r.value) || (Area(m) == Area(r.value) && le(r.value, m))
  {
    if screens == [] { return None; }
    var lines := Shared(le, screens);
    SharedIsIntersection(le, screens);
    r := LargestArea(lines);
    if r.Some? {
      ghost var k :| 0 <= k < |lines| && FirstAt(lines, k, r.value);
      FirstOfLargest(le, lines, k);
      assert lines[k] in lines;
    } else {
      NoArea(lines);
    }
  }

  /** In a sorted list the first of the largest comes before every other of its size. */
  lemma FirstOfLargest(le: (Mode, Mode) -> bool, lines: seq<Mode>, k: int)
    requires TotalOrder(le) && Sorted(le, lines) && 0 <= k < |lines| && FirstAt(lines, k, lines[k])
    requires forall i :: 0 <= i < |lines| ==> Area(lines[i]) <= Area(lines[k])
    ensures forall m :: m in lines ==> Area(m) < Area(lines[k]) || (Area(m) == Area(lines[k]) && le(lines[k], m))
  {
    forall m | m in lines
      ensures Area(m) < Area(lines[k]) || (Area(m) == Area(lines[k]) && le(lines[k], m))
    {
      var i :| 0 <= i < |lines| && lines[i] == m;
    }
  }

  lemma NoArea(lines: seq<Mode>)
    requires forall i :: 0 <= i < |lines| ==> Area(lines[i]) == 0
    ensures forall m :: m in lines ==> Area(m) == 0
  {
  }

  lemma {:induction false} InsertCounts(le: (Mode, Mode) -> bool, m: Mode, s: seq<Mode>)
    ensures multiset(Insert(le, m, s)) == multiset(s) + multiset{m}
  {
    if s != [] && !le(m, s[0]) {
      InsertCounts(le, m, s[1..]);
      assert s == [s[0]] + s[1..];
    }
  }

  lemma {:induction false} InsertHolds(le: (Mode, Mode) -> bool, m: Mode, s: seq<Mode>)
    ensures forall x :: x in Insert(le, m, s) ==> x == m || x in s
  {
    if s != [] && !le(m, s[0]) { InsertHolds(le, m, s[1..]); }
  }

  lemma SortedCons(le: (Mode, Mode) -> bool, m: Mode, s: seq<Mode>)
    requires Sorted(le, s) && forall x :: x in s ==> le(m, x)
    ensures Sorted(le, [m] + s)
  {
  }

  lemma {:induction false} InsertSorted(le: (Mode, Mode) -> bool, m: Mode, s: seq<Mode>)
    requires TotalOrder(le) && Sorted(le, s)
    ensures Sorted(le, Insert(le, m, s))
  {
    if s == [] || le(m, s[0]) {
      forall x | x in s
        ensures le(m, x)
      {
        var i :| 0 <= i < |s| && s[i] == x;
        assert le(s[0], x);
      }
      SortedCons(le, m, s);
    } else {
      InsertSorted(le, m, s[1..]);
      InsertHolds(le, m, s[1..]);
      SortedCons(le, s[0], Insert(le, m, s[1..]));
    }
  }

  lemma {:induction false} SortSorts(le: (Mode, Mode) -> bool, s: seq<Mode>)
    requires TotalOrder(le)
    ensures Sorted(le, Sort(le, s)) && multiset(Sort(le, s)) == multiset(s)
  {
    if s != [] {
      SortSorts(le, s[1..]);
      InsertSorted(le, s[0], Sort(le, s[1..]));
      InsertCounts(le, s[0], Sort(le, s[1..]));
      assert s == [s[0]] + s[1..];
    }
  }

  /** In a sorted list the first mode either comes again at once or not at all. */
  lemma FirstIsGrouped(le: (Mode, Mode) -> bool, s: seq<Mode>)
    requires TotalOrder(le) && Sorted(le, s) && s != []
    ensures s[0] in s[1..] ==> s[1] == s[0]
    ensures forall m :: multiset(s)[m] == multiset(s[1..])[m] + if m == s[0] then 1 else 0
    ensures Sorted(le, s[1..])
  {
    assert s == [s[0]] + s[1..];
    if s[0] in s[1..] {
      var j :| 1 <= j < |s| && s[j] == s[0];
      assert le(s[0], s[1]) && le(s[1], s[j]);
    }
  }

  /** On a sorted list sort -u keeps each mode once. */
  lemma {:induction false} CollapseKeepsOnce(le: (Mode, Mode) -> bool, s: seq<Mode>, m: Mode)
    requires TotalOrder(le) && Sorted(le, s)
    ensures multiset(Collapse(s))[m] == if m in s then 1 else 0
  {
    if |s| >= 2 {
      var first, rest := s[0], s[1..];
      FirstIsGrouped(le, s);
      CollapseKeepsOnce(le, rest, m);
      assert s == [first] + rest;
      assert m in s <==> m == first || m in rest;
      if first != rest[0] {
        assert first !in rest;
        OneMore(first, Collapse(rest), m);
      }
    } else if |s| == 1 {
      assert s == [s[0]];
    }
  }

  lemma OneMore(first: Mode, rest: seq<Mode>, m: Mode)
    ensures multiset([first] + rest)[m] == multiset(rest)[m] + if m == first then 1 else 0
  {
  }

  /** What uniq -c should give for a sorted list: each mode once, in order, with its number. */
  ghost predicate Counts(le: (Mode, Mode) -> bool, s: seq<Mode>, rs: seq<Count>) {
    && (forall r :: r in rs <==> r.mode in s && r.count == multiset(s)[r.mode])
    && (forall i, j :: 0 <= i < j < |rs| ==> le(rs[i].mode, rs[j].mode) && rs[i].mode != rs[j].mode)
    && (s != [] ==> rs != [] && rs[0].mode == s[0])
  }

  lemma AnotherOfTheFirst(le: (Mode, Mode) -> bool, m: Mode, s: seq<Mode>, rs: seq<Count>)
    requires s != [] && s[0] == m && Counts(le, s, rs)
    ensures Counts(le, [m] + s, [Count(rs[0].count + 1, m)] + rs[1..])
  {
    var modes, counted := [m] + s, [Count(rs[0].count + 1, m)] + rs[1..];
    assert rs == [rs[0]] + rs[1..] && rs[0] in rs;
    forall r
      ensures r in counted <==> r.mode in modes && r.count == multiset(modes)[r.mode]
    {
      assert multiset(modes)[r.mode] == multiset(s)[r.mode] + if r.mode == m then 1 else 0;
      if r in rs[1..] {
        assert r in rs && r.mode != m;
      } else if r.mode == m {
        assert multiset(s)[m] == rs[0].count;
      } else {
        assert r in counted <==> r in rs;
      }
    }
  }

  lemma ANewFirst(le: (Mode, Mode) -> bool, m: Mode, s: seq<Mode>, rs: seq<Count>)
    requires m !in s && Counts(le, s, rs) && forall x :: x in s ==> le(m, x)
    ensures Counts(le, [m] + s, [Count(1, m)] + rs)
  {
    var modes, counted := [m] + s, [Count(1, m)] + rs;
    forall r
      ensures r in counted <==> r.mode in modes && r.count == multiset(modes)[r.mode]
    {
      assert multiset(modes)[r.mode] == multiset(s)[r.mode] + if r.mode == m then 1 else 0;
    }
    assert forall i :: 0 <= i < |rs| ==> rs[i] in rs;
  }

  lemma {:induction false} CountedCounts(le: (Mode, Mode) -> bool, s: seq<Mode>)
    requires TotalOrder(le) && Sorted(le, s)
    ensures Counts(le, s, Counted(s))
  {
    if s != [] {
      var rest := Counted(s[1..]);
      FirstIsGrouped(le, s);
      CountedCounts(le, s[1..]);
      assert s == [s[0]] + s[1..];
      if rest != [] && rest[0].mode == s[0] {
        AnotherOfTheFirst(le, s[0], s[1..], rest);
      } else {
        assert s[0] !in s[1..];
        ANewFirst(le, s[0], s[1..], rest);
      }
    }
  }

  lemma {:induction false} CountedTimesPicks(le: (Mode, Mode) -> bool, n: nat, rs: seq<Count>)
    requires forall i, j :: 0 <= i < j < |rs| ==> le(rs[i].mode, rs[j].mode)
    ensures forall m :: m in CountedTimes(n, rs) <==> Count(n, m) in rs
    ensures Sorted(le, CountedTimes(n, rs))
  {
    if rs != [] {
      CountedTimesPicks(le, n, rs[1..]);
      assert rs == [rs[0]] + rs[1..];
      forall m | m in CountedTimes(n, rs[1..])
        ensures le(rs[0].mode, m)
      {
        assert Count(n, m) in rs[1..];
        var j :| 1 <= j < |rs| && rs[j] == Count(n, m);
      }
    }
  }

  /** On how many screens a mode is. */
  function Screens(screens: seq<seq<Mode>>, m: Mode): nat {
    if screens == [] then 0 else (if m in screens[0] then 1 else 0) + Screens(screens[1..], m)
  }

  lemma SortKeeps(le: (Mode, Mode) -> bool, s: seq<Mode>, m: Mode)
    requires TotalOrder(le)
    ensures m in Sort(le, s) <==> m in s
  {
    SortSorts(le, s);
    assert m in Sort(le, s) <==> m in multiset(Sort(le, s));
  }

  /** What one screen contributes for one mode. */
  lemma OncePerScreen(le: (Mode, Mode) -> bool, s: seq<Mode>, m: Mode)
    requires TotalOrder(le)
    ensures multiset(Collapse(Sort(le, s)))[m] == if m in s then 1 else 0
  {
    SortSorts(le, s);
    SortKeeps(le, s, m);
    CollapseKeepsOnce(le, Sort(le, s), m);
  }

  lemma {:induction false} ModesCountScreens(le: (Mode, Mode) -> bool, screens: seq<seq<Mode>>, m: Mode)
    requires TotalOrder(le)
    ensures multiset(ModesOf(le, screens))[m] == Screens(screens, m)
  {
    if screens != [] {
      OncePerScreen(le, screens[0], m);
      ModesCountScreens(le, screens[1..], m);
    }
  }

  lemma {:induction false} OnAllScreens(screens: seq<seq<Mode>>, m: Mode)
    ensures Screens(screens, m) <= |screens|
    ensures Screens(screens, m) == |screens| <==> OnEveryScreen(screens, m)
  {
    if screens != [] {
      OnAllScreens(screens[1..], m);
      assert forall i :: 0 < i < |screens| ==> screens[i] == screens[1..][i - 1];
      assert OnEveryScreen(screens[1..], m) <==> forall i :: 0 < i < |screens| ==> m in screens[i];
    }
  }

  /** Counting each mode once per screen and keeping those counted n times gives exactly the modes that
    * all n screens have. */
  lemma SharedIsIntersection(le: (Mode, Mode) -> bool, screens: seq<seq<Mode>>)
    requires TotalOrder(le) && screens != []
    ensures forall m :: m in Shared(le, screens) <==> OnEveryScreen(screens, m)
    ensures Sorted(le, Shared(le, screens))
  {
    var all := ModesOf(le, screens);
    var sorted := Sort(le, all);
    SortSorts(le, all);
    CountedCounts(le, sorted);
    CountedTimesPicks(le, |screens|, Counted(sorted));
    forall m
      ensures m in Shared(le, screens) <==> OnEveryScreen(screens, m)
    {
      ModesCountScreens(le, screens, m);
      OnAllScreens(screens, m);
      assert Count(|screens|, m) in Counted(sorted) <==> m in sorted && |screens| == multiset(sorted)[m];
      assert m in sorted <==> m in multiset(sorted);
    }
  }

  // ---------------------------------------------------------------------- preferred mode

  datatype Offer = Offer(mode: Mode, rate: nat)   // a row of the mode table; the rate in millihertz

  /** Larger area, or the same area at a higher rate. */
  predicate Better(a: Offer, b: Offer) {
    Area(a.mode) > Area(b.mode) || (Area(a.mode) == Area(b.mode) && a.rate > b.rate)
  }

  /** preferred_mode: a row that no row is better than, and that is better than every earlier one;
    * nothing only when no row is better than zero by zero at rate zero. */
  method PreferredMode(rows: seq<Offer>) returns (r: Option<Mode>)
    ensures r.None? <==> forall i :: 0 <= i < |rows| ==> !Better(rows[i], Offer(Mode(0, 0), 0))
    ensures r.Some? ==> exists k :: 0 <= k < |rows| && rows[k].mode == r.value && BestAt(rows, k)
  {
    var best, k := Offer(Mode(0, 0), 0), -1;
    for i := 0 to |rows|
      invariant -1 <= k < i
      invariant k >= 0 ==> best == rows[k] && Better(best, Offer(Mode(0, 0), 0))
      invariant k < 0 ==> best == Offer(Mode(0, 0), 0)
      invariant forall j :: 0 <= j < i ==> !Better(rows[j], best)
      invariant forall j :: 0 <= j < k ==> Better(best, rows[j])
    {
      if Better(rows[i], best) {
        best, k := rows[i], i;
      }
    }
    r := if k >= 0 then Some(rows[k].mode) else None;
  }

  ghost predicate BestAt(rows: seq<Offer>, k: int)
    requires 0 <= k < |rows|
  {
    && (forall i :: 0 <= i < |rows| ==> !Better(rows[i], rows[k]))
    && (forall i :: 0 <= i < k ==> Better(rows[k], rows[i]))
  }

  /** The best row has the largest area, the highest rate among those, and comes first among equals. */
  lemma BestMeans(rows: seq<Offer>, k: int, i: int)
    requires 0 <= k < |rows| && 0 <= i < |rows| && BestAt(rows, k)
    ensures Area(rows[i].mode) <= Area(rows[k].mode)
    ensures Area(rows[i].mode) == Area(rows[k].mode) ==> rows[i].rate <= rows[k].rate
    ensures Area(rows[i].mode) == Area(rows[k].mode) && rows[i].rate == rows[k].rate ==> k <= i
  {
  }

  // -------------------------------------------------------------------- extended placement

  /** The stored rotation; anything unknown counts as normal. */
  datatype Rotation = Normal | Right90 | Inverted | Left270

  datatype Side = LeftOf | RightOf | Above | Below

  datatype Screen = Screen(mode: Mode, rotation: Rotation, side: Side)

  /** A half-open rectangle of the desktop. */
  datatype Rect = Rect(x: int, y: int, w: nat, h: nat)

  /** effective_dims: a quarter turn swaps width and height. */
  function Rotated(s: Screen): Mode {
    if s.rotation.Right90? || s.rotation.Left270? then Mode(s.mode.height, s.mode.width) else s.mode
  }

  function MainRect(main: Screen): Rect {
    Rect(0, 0, Rotated(main).width, Rotated(main).height)
  }

  /** The position build_layout computes from the main screen's rotated size. */
  function Placed(main: Screen, s: Screen): Rect {
    var p, d := Rotated(main), Rotated(s);
    match s.side
    case LeftOf => Rect(0 - d.width as int, 0, d.width, d.height)
    case Above => Rect(0, 0 - d.height as int, d.width, d.height)
    case Below => Rect(0, p.height, d.width, d.height)
    case RightOf => Rect(p.width, 0, d.width, d.height)
  }

  /** The loop over the screens: the main one at the origin, the others beside it. */
  method BuildExtended(main: Screen, others: seq<Screen>) returns (rects: seq<Rect>)
    ensures |rects| == |others| + 1 && rects[0] == MainRect(main)
    ensures forall i :: 0 <= i < |others| ==> rects[i + 1] == Placed(main, others[i])
  {
    var pw, ph := main.mode.width, main.mode.height;
    if main.rotation.Right90? || main.rotation.Left270? { pw, ph := ph, pw; }
    rects := [Rect(0, 0, pw, ph)];
    for n := 0 to |others|
      invariant |rects| == n + 1 && rects[0] == MainRect(main)
      invariant forall i :: 0 <= i < n ==> rects[i + 1] == Placed(main, others[i])
    {
      var s := others[n];
      var ow, oh := s.mode.width, s.mode.height;
      if s.rotation.Right90? || s.rotation.Left270? { ow, oh := oh, ow; }
      var x: int, y: int := pw, 0;
      if s.side.LeftOf? { x, y := 0 - ow as int, 0; }
      else if s.side.Above? { x, y := 0, 0 - oh as int; }
      else if s.side.Below? { x, y := 0, ph; }
      rects := rects + [Rect(x, y, ow, oh)];
    }
  }

  predicate Overlap(a: Rect, b: Rect) {
    a.x < b.x + b.w && b.x < a.x + a.w && a.y < b.y + b.h && b.y < a.y + a.h
  }

  /** They share a stretch of an edge. */
  predicate Touch(a: Rect, b: Rect) {
    || ((a.x + a.w == b.x || b.x + b.w == a.x) && a.y < b.y + b.h && b.y < a.y + a.h)
    || ((a.y + a.h == b.y || b.y + b.h == a.y) && a.x < b.x + b.w && b.x < a.x + a.w)
  }

  predicate Positive(s: Screen) {
    s.mode.width > 0 && s.mode.height > 0
  }

  /** Which way round a screen stands, and on which side of the main one, edge to edge and level with it. */
  lemma EachSideLies(main: Screen, s: Screen)
    ensures
      var m, r := MainRect(main), Placed(main, s);
      var turned := s.rotation == Right90 || s.rotation == Left270;
      && r.w == (if turned then s.mode.height else s.mode.width)
      && r.h == (if turned then s.mode.width else s.mode.height)
      && m.x == m.y == 0
      && (s.side.LeftOf? ==> r.x + r.w == m.x && r.y == m.y)
      && (s.side.RightOf? ==> r.x == m.x + m.w && r.y == m.y)
      && (s.side.Above? ==> r.y + r.h == m.y && r.x == m.x)
      && (s.side.Below? ==> r.y == m.y + m.h && r.x == m.x)
  {
  }

  /** Turning a screen by a quarter swaps its sides; the main screen stands the way it is turned. */
  lemma MainScreenLies(main: Screen)
    ensures
      var m, turned := MainRect(main), main.rotation == Right90 || main.rotation == Left270;
      && m.w == (if turned then main.mode.height else main.mode.width)
      && m.h == (if turned then main.mode.width else main.mode.height)
  {
  }

  /** Every other screen lies against the main one and never over it. */
  lemma BesideTheMainScreen(main: Screen, s: Screen)
    requires Positive(main) && Positive(s)
    ensures Touch(MainRect(main), Placed(main, s)) && !Overlap(MainRect(main), Placed(main, s))
  {
  }

  /** Screens on different sides overlap in exactly one case: one to the right and one below, each
    * reaching past the main screen's corner. */
  lemma DifferentSidesOverlapOnlyAtTheCorner(main: Screen, s: Screen, t: Screen)
    requires Positive(main) && Positive(s) && Positive(t) && s.side != t.side
    ensures Overlap(Placed(main, s), Placed(main, t)) <==>
      (  (s.side.RightOf? && t.side.Below? && Rotated(s).height > Rotated(main).height
                                           && Rotated(t).width > Rotated(main).width)
      || (s.side.Below? && t.side.RightOf? && Rotated(t).height > Rotated(main).height
                                           && Rotated(s).width > Rotated(main).width))
  {
  }
}
