/**
 * Library routines over a display: the bounding rectangle and the centroid
 * of a set of items, and fitting the view of a display to a rectangle.
 * An iterator of items is a sequence consumed once, front to back.
 */
module DisplayLib {
  import opened Wrappers
  import opened Geometry
  import opened Items

  // ---------------------------------------------------------------------
  // Bounds of a set of items

  /** The bounds of every item, in iteration order. */
  function BoundsOf(items: seq<Item>): (rs: seq<Rect>)
    ensures |rs| == |items|
    ensures forall i :: 0 <= i < |items| ==> rs[i] == items[i].bounds
  {
    seq(|items|, i requires 0 <= i < |items| => items[i].bounds)
  }

  /**
   * One step of the fold. The comparisons are those of getBounds: a NaN
   * accumulator stays NaN (every comparison against it is false), while
   * NaN next bounds lose every comparison and leave the accumulator as is.
   */
  function Hull(acc: Rect, nb: Rect): Rect {
    if acc.Empty? then Empty
    else if nb.Empty? then acc
    else
      var x1 := if nb.MinX() < acc.MinX() then nb.MinX() else acc.MinX();
      var x2 := if nb.MaxX() > acc.MaxX() then nb.MaxX() else acc.MaxX();
      var y1 := if nb.MinY() < acc.MinY() then nb.MinY() else acc.MinY();
      var y2 := if nb.MaxY() > acc.MaxY() then nb.MaxY() else acc.MaxY();
      FromCorners(x1, y1, x2, y2)
  }

  /** The fold seeded with the first rectangle; NaN when there is none. */
  function UnionOf(rs: seq<Rect>): Rect
    decreases |rs|
  {
    if |rs| == 0 then Empty
    else if |rs| == 1 then rs[0]
    else Hull(UnionOf(rs[..|rs| - 1]), rs[|rs| - 1])
  }

  /** Grows a rectangle by `margin` on every side; a NaN rectangle stays NaN. */
  function WithMargin(r: Rect, margin: real): Rect {
    if r.Empty? then Empty
    else Rect(r.MinX() - margin, r.MinY() - margin, r.w + 2.0 * margin, r.h + 2.0 * margin)
  }

  /** What getBounds computes: the union of the items' bounds, grown once by the margin. */
  function UnionBounds(items: seq<Item>, margin: real): Rect {
    WithMargin(UnionOf(BoundsOf(items)), margin)
  }

  predicate AllReal(rs: seq<Rect>) {
    forall i :: 0 <= i < |rs| ==> rs[i].Rect?
  }

  /**
   * getBounds with a caller-supplied rectangle `b`. getBounds rebinds its
   * local to a new rectangle before reading `b`, so `b` neither influences
   * the result nor receives it.
   */
  method GetBoundsInto(items: seq<Item>, margin: real, b: Rect) returns (r: Rect)
    ensures r == UnionBounds(items, margin)
  {
    ghost var rs := BoundsOf(items);
    r := Empty;
    var i := 0;
    if i < |items| {
      r := items[0].bounds;
      i := 1;
      assert rs[..1] == [rs[0]];
    }
    while i < |items|
      invariant i <= |items|
      invariant |items| > 0 ==> 1 <= i
      invariant r == UnionOf(rs[..i])
    {
      r := Enclose(r, items[i].bounds);
      UnionStep(rs, i);
      i := i + 1;
    }
    assert rs[..i] == rs;
    ghost var union := r;
    if r.Rect? {
      r := Rect(r.MinX() - margin, r.MinY() - margin, r.w + 2.0 * margin, r.h + 2.0 * margin);
    }
    assert r == WithMargin(union, margin);
  }

  /**
   * One pass of getBounds' loop: the rectangle spanning `b` and the next
   * item's bounds `nb`, each side chosen by the loop's own comparison.
   * NaN accumulated bounds stay NaN and NaN next bounds are passed over.
   */
  method Enclose(b: Rect, nb: Rect) returns (r: Rect)
    ensures b.Empty? ==> r.Empty?
    ensures b.Rect? && nb.Empty? ==> r == b
    ensures b.Rect? && nb.Rect? ==> Inside(b, r) && Inside(nb, r)
    ensures b.Rect? && nb.Rect? ==>
      (r.MinX() == b.MinX() || r.MinX() == nb.MinX()) &&
      (r.MinY() == b.MinY() || r.MinY() == nb.MinY()) &&
      (r.MaxX() == b.MaxX() || r.MaxX() == nb.MaxX()) &&
      (r.MaxY() == b.MaxY() || r.MaxY() == nb.MaxY())
    ensures r == Hull(b, nb)
  {
    r := b;
    if b.Rect? && nb.Rect? {
      var x1 := if nb.MinX() < b.MinX() then nb.MinX() else b.MinX();
      var x2 := if nb.MaxX() > b.MaxX() then nb.MaxX() else b.MaxX();
      var y1 := if nb.MinY() < b.MinY() then nb.MinY() else b.MinY();
      var y2 := if nb.MaxY() > b.MaxY() then nb.MaxY() else b.MaxY();
      r := Rect(x1, y1, x2 - x1, y2 - y1);
    }
  }

  /** One more step of the fold after the seed. */
  lemma UnionStep(rs: seq<Rect>, i: nat)
    requires 1 <= i < |rs|
    ensures UnionOf(rs[..i + 1]) == Hull(UnionOf(rs[..i]), rs[i])
  {
    assert rs[..i + 1][..i] == rs[..i];
  }

  /** getBounds that allocates its own result rectangle. */
  method GetBounds(items: seq<Item>, margin: real) returns (r: Rect)
    ensures r == UnionBounds(items, margin)
  {
    r := GetBoundsInto(items, margin, Rect(0.0, 0.0, 0.0, 0.0));
  }

  /**
   * The union of real rectangles encloses each of them and each of its four
   * sides is a side of one of them: it is the least enclosing rectangle.
   */
  lemma {:induction false} UnionExtremes(rs: seq<Rect>)
    requires |rs| > 0 && AllReal(rs)
    ensures UnionOf(rs).Rect?
    ensures forall i :: 0 <= i < |rs| ==> Inside(rs[i], UnionOf(rs))
    ensures exists i :: 0 <= i < |rs| && rs[i].MinX() == UnionOf(rs).MinX()
    ensures exists i :: 0 <= i < |rs| && rs[i].MinY() == UnionOf(rs).MinY()
    ensures exists i :: 0 <= i < |rs| && rs[i].MaxX() == UnionOf(rs).MaxX()
    ensures exists i :: 0 <= i < |rs| && rs[i].MaxY() == UnionOf(rs).MaxY()
  {
    if |rs| == 1 {
      assert Inside(rs[0], rs[0]);
    } else {
      var n := |rs| - 1;
      var init := rs[..n];
      UnionExtremes(init);
      var u, v := UnionOf(init), UnionOf(rs);
      assert v == Hull(u, rs[n]);
      forall i | 0 <= i < |rs| ensures Inside(rs[i], v) {
        if i < n { assert init[i] == rs[i]; assert Inside(init[i], u); }
      }
      var a :| 0 <= a < n && init[a].MinX() == u.MinX();
      var b :| 0 <= b < n && init[b].MinY() == u.MinY();
      var c :| 0 <= c < n && init[c].MaxX() == u.MaxX();
      var d :| 0 <= d < n && init[d].MaxY() == u.MaxY();
      assert rs[if rs[n].MinX() < u.MinX() then n else a].MinX() == v.MinX();
      assert rs[if rs[n].MinY() < u.MinY() then n else b].MinY() == v.MinY();
      assert rs[if rs[n].MaxX() > u.MaxX() then n else c].MaxX() == v.MaxX();
      assert rs[if rs[n].MaxY() > u.MaxY() then n else d].MaxY() == v.MaxY();
    }
  }

  /**
   * getBounds on no items gives the NaN rectangle, margin or not. On items
   * with real bounds, each side is the extreme side of the items moved out
   * by the margin, and the margin is added once: the width and height grow
   * by exactly twice the margin over the union's.
   */
  lemma UnionBoundsCorners(items: seq<Item>, margin: real)
    ensures items == [] ==> UnionBounds(items, margin).Empty?
    ensures items != [] && AllReal(BoundsOf(items)) ==>
      var r, u := UnionBounds(items, margin), UnionOf(BoundsOf(items));
      r.Rect? && u.Rect? &&
      r.w == u.w + 2.0 * margin && r.h == u.h + 2.0 * margin &&
      (forall i :: 0 <= i < |items| ==>
         r.MinX() + margin <= items[i].bounds.MinX() && items[i].bounds.MaxX() <= r.MaxX() - margin &&
         r.MinY() + margin <= items[i].bounds.MinY() && items[i].bounds.MaxY() <= r.MaxY() - margin) &&
      (exists i :: 0 <= i < |items| && items[i].bounds.MinX() == r.MinX() + margin) &&
      (exists i :: 0 <= i < |items| && items[i].bounds.MinY() == r.MinY() + margin) &&
      (exists i :: 0 <= i < |items| && items[i].bounds.MaxX() == r.MaxX() - margin) &&
      (exists i :: 0 <= i < |items| && items[i].bounds.MaxY() == r.MaxY() - margin)
  {
    if items != [] && AllReal(BoundsOf(items)) {
      var rs := BoundsOf(items);
      UnionExtremes(rs);
      var r, u := UnionBounds(items, margin), UnionOf(rs);
      forall i | 0 <= i < |items|
        ensures r.MinX() + margin <= items[i].bounds.MinX() && items[i].bounds.MaxX() <= r.MaxX() - margin
        ensures r.MinY() + margin <= items[i].bounds.MinY() && items[i].bounds.MaxY() <= r.MaxY() - margin
      {
        assert Inside(rs[i], u);
      }
      var a :| 0 <= a < |rs| && rs[a].MinX() == u.MinX();
      var b :| 0 <= b < |rs| && rs[b].MinY() == u.MinY();
      var c :| 0 <= c < |rs| && rs[c].MaxX() == u.MaxX();
      var d :| 0 <= d < |rs| && rs[d].MaxY() == u.MaxY();
      assert items[a].bounds.MinX() == r.MinX() + margin;
      assert items[b].bounds.MinY() == r.MinY() + margin;
      assert items[c].bounds.MaxX() == r.MaxX() - margin;
      assert items[d].bounds.MaxY() == r.MaxY() - margin;
    }
  }

  /** With a non-negative margin, every item's bounds lie inside getBounds' result. */
  lemma UnionBoundsEncloses(items: seq<Item>, margin: real)
    requires margin >= 0.0 && AllReal(BoundsOf(items))
    ensures forall i :: 0 <= i < |items| ==> Inside(items[i].bounds, UnionBounds(items, margin))
  {
    UnionBoundsCorners(items, margin);
  }

  /**
   * For items with real bounds, the result depends only on the multiset of
   * their bounds, not on the order in which the iterator yields them.
   */
  lemma UnionBoundsOrderFree(items: seq<Item>, others: seq<Item>, margin: real)
    requires AllReal(BoundsOf(items))
    requires multiset(BoundsOf(items)) == multiset(BoundsOf(others))
    ensures UnionBounds(items, margin) == UnionBounds(others, margin)
  {
    var rs, ss := BoundsOf(items), BoundsOf(others);
    assert |rs| == |multiset(rs)| == |multiset(ss)| == |ss|;
    if rs != [] {
      forall j | 0 <= j < |ss| ensures ss[j].Rect? && ss[j] in rs {
        assert ss[j] in multiset(ss);
      }
      UnionExtremes(rs);
      UnionExtremes(ss);
      var u, v := UnionOf(rs), UnionOf(ss);
      forall j | 0 <= j < |ss| ensures Inside(ss[j], u) {
        var i :| 0 <= i < |rs| && rs[i] == ss[j];
      }
      forall i | 0 <= i < |rs| ensures Inside(rs[i], v) {
        assert rs[i] in multiset(ss);
        var j :| 0 <= j < |ss| && ss[j] == rs[i];
      }
      var a :| 0 <= a < |rs| && rs[a].MinX() == u.MinX();
      var b :| 0 <= b < |rs| && rs[b].MinY() == u.MinY();
      var c :| 0 <= c < |rs| && rs[c].MaxX() == u.MaxX();
      var d :| 0 <= d < |rs| && rs[d].MaxY() == u.MaxY();
      var a' :| 0 <= a' < |ss| && ss[a'].MinX() == v.MinX();
      var b' :| 0 <= b' < |ss| && ss[b'].MinY() == v.MinY();
      var c' :| 0 <= c' < |ss| && ss[c'].MaxX() == v.MaxX();
      var d' :| 0 <= d' < |ss| && ss[d'].MaxY() == v.MaxY();
      assert Inside(rs[a], v) && Inside(rs[b], v) && Inside(rs[c], v) && Inside(rs[d], v);
      assert Inside(ss[a'], u) && Inside(ss[b'], u) && Inside(ss[c'], u) && Inside(ss[d'], u);
      SameCorners(u, v);
    }
  }

  /**
   * The NaN comparisons of the fold: NaN bounds on the first item make the
   * whole result NaN, while NaN bounds on any later item are passed over.
   */
  lemma {:induction false} UnionNaNBounds(rs: seq<Rect>)
    ensures |rs| > 0 && rs[0].Empty? ==> UnionOf(rs).Empty?
    ensures forall k :: 1 <= k <= |rs| ==> UnionOf(rs[..k] + [Empty] + rs[k..]) == UnionOf(rs)
  {
    if |rs| > 1 {
      UnionNaNBounds(rs[..|rs| - 1]);
    }
    forall k | 1 <= k <= |rs| ensures UnionOf(rs[..k] + [Empty] + rs[k..]) == UnionOf(rs) {
      UnionSkipsNaNAt(rs, k);
    }
  }

  /** NaN bounds inserted after the first `k` items, k >= 1, do not change the fold. */
  lemma {:induction false} UnionSkipsNaNAt(rs: seq<Rect>, k: nat)
    requires 1 <= k <= |rs|
    ensures UnionOf(rs[..k] + [Empty] + rs[k..]) == UnionOf(rs)
    decreases |rs|
  {
    var t := rs[..k] + [Empty] + rs[k..];
    if k == |rs| {
      assert t == rs + [Empty];
      assert t[..|t| - 1] == rs;
    } else {
      var n := |rs| - 1;
      var init := rs[..n];
      UnionSkipsNaNAt(init, k);
      assert t[..|t| - 1] == init[..k] + [Empty] + init[k..];
      assert t[|t| - 1] == rs[n];
    }
  }

  /** Two items with bounds (0,0,2,2) and (5,5,1,1) and margin 1 give corners (-1,-1) and (7,7). */
  lemma UnionBoundsExample(i1: Item, i2: Item)
    requires i1.bounds == Rect(0.0, 0.0, 2.0, 2.0) && i2.bounds == Rect(5.0, 5.0, 1.0, 1.0)
    ensures var r := UnionBounds([i1, i2], 1.0);
      r.Rect? && r.MinX() == -1.0 && r.MinY() == -1.0 && r.MaxX() == 7.0 && r.MaxY() == 7.0
  {
    var rs := BoundsOf([i1, i2]);
    assert rs == [i1.bounds, i2.bounds];
    assert UnionOf(rs) == Rect(0.0, 0.0, 6.0, 6.0) by {
      assert rs[..1] == [i1.bounds];
      assert UnionOf(rs[..1]) == i1.bounds;
      assert Hull(i1.bounds, i2.bounds) == FromCorners(0.0, 0.0, 6.0, 6.0);
    }
    assert UnionBounds([i1, i2], 1.0) == Rect(-1.0, -1.0, 8.0, 8.0);
  }

  // ---------------------------------------------------------------------
  // Centroid of a set of items

  datatype Axis = X | Y

  function Coord(it: Item, a: Axis): Num {
    match a
    case X => it.x
    case Y => it.y
  }

  /** An item is a sample for the centroid when neither coordinate is NaN or infinite. */
  predicate ValidSample(it: Item) {
    it.x.Finite? && it.y.Finite?
  }

  /** The number of valid samples. */
  function ValidCount(s: seq<Item>): nat
    decreases |s|
  {
    if s == [] then 0
    else ValidCount(s[..|s| - 1]) + (if ValidSample(s[|s| - 1]) then 1 else 0)
  }

  /** The sum of one coordinate over the valid samples. */
  function SumOf(s: seq<Item>, a: Axis): real
    decreases |s|
  {
    if s == [] then 0.0
    else
      var last := s[|s| - 1];
      SumOf(s[..|s| - 1], a) + (if ValidSample(last) then Coord(last, a).v else 0.0)
  }

  /** What getCentroid computes: the mean position of the valid samples, (0,0) if there is none. */
  function Centroid(s: seq<Item>): Point {
    var n := ValidCount(s);
    if n == 0 then Point(0.0, 0.0)
    else Point(SumOf(s, X) / n as real, SumOf(s, Y) / n as real)
  }

  /**
   * getCentroid with a caller-supplied point `p`. getCentroid rebinds its
   * local to a new point, so `p` neither influences the result nor receives it.
   */
  method GetCentroidInto(items: seq<Item>, p: Point) returns (r: Point)
    ensures r == Centroid(items)
  {
    var cx, cy := 0.0, 0.0;
    var count: nat := 0;
    var i := 0;
    while i < |items|
      invariant i <= |items|
      invariant cx == SumOf(items[..i], X) && cy == SumOf(items[..i], Y)
      invariant count == ValidCount(items[..i])
      invariant count == 0 ==> cx == 0.0 && cy == 0.0
    {
      var it := items[i];
      assert items[..i + 1][..i] == items[..i];
      if it.x.Finite? && it.y.Finite? {
        cx := cx + it.x.v;
        cy := cy + it.y.v;
        count := count + 1;
      }
      i := i + 1;
    }
    assert items[..i] == items;
    if count > 0 {
      cx := cx / count as real;
      cy := cy / count as real;
    }
    r := Point(cx, cy);
  }

  /** getCentroid that allocates its own result point. */
  method GetCentroid(items: seq<Item>) returns (r: Point)
    ensures r == Centroid(items)
  {
    r := GetCentroidInto(items, Point(0.0, 0.0));
  }

  lemma {:induction false} CountAndSumAppend(s: seq<Item>, t: seq<Item>, a: Axis)
    ensures ValidCount(s + t) == ValidCount(s) + ValidCount(t)
    ensures SumOf(s + t, a) == SumOf(s, a) + SumOf(t, a)
    decreases |t|
  {
    if t == [] {
      assert s + t == s;
    } else {
      var n := |t| - 1;
      assert (s + t)[..|s + t| - 1] == s + t[..n];
      CountAndSumAppend(s, t[..n], a);
    }
  }

  /** An item with a NaN or infinite coordinate, wherever it stands, does not move the centroid. */
  lemma CentroidSkipsInvalid(before: seq<Item>, bad: Item, after: seq<Item>)
    requires !ValidSample(bad)
    ensures Centroid(before + [bad] + after) == Centroid(before + after)
  {
    forall a: Axis
      ensures ValidCount(before + [bad] + after) == ValidCount(before + after)
      ensures SumOf(before + [bad] + after, a) == SumOf(before + after, a)
    {
      CountAndSumAppend(before + [bad], after, a);
      CountAndSumAppend(before, [bad], a);
      CountAndSumAppend(before, after, a);
      assert [bad][..0] == [];
    }
  }

  /** `n` copies of `c` added up: `n * c` written without a product of two unknowns. */
  function Scaled(n: nat, c: real): (r: real)
    ensures r == n as real * c
  {
    if n == 0 then 0.0 else Scaled(n - 1, c) + c
  }

  lemma {:induction false} SumWithin(s: seq<Item>, a: Axis, lo: real, hi: real)
    requires forall i :: 0 <= i < |s| && ValidSample(s[i]) ==> lo <= Coord(s[i], a).v <= hi
    ensures Scaled(ValidCount(s), lo) <= SumOf(s, a) <= Scaled(ValidCount(s), hi)
    decreases |s|
  {
    if s != [] {
      var n := |s| - 1;
      var init := s[..n];
      forall i | 0 <= i < n && ValidSample(init[i]) ensures lo <= Coord(init[i], a).v <= hi {
        assert init[i] == s[i];
      }
      SumWithin(init, a, lo, hi);
    }
  }

  /**
   * When some sample is valid, each coordinate of the centroid lies within
   * any range that holds that coordinate of every valid sample.
   */
  lemma CentroidWithin(s: seq<Item>, a: Axis, lo: real, hi: real)
    requires ValidCount(s) > 0
    requires forall i :: 0 <= i < |s| && ValidSample(s[i]) ==> lo <= Coord(s[i], a).v <= hi
    ensures var c := Centroid(s); lo <= (if a == X then c.x else c.y) <= hi
  {
    CentroidAxis(s, a);
    AxisMeanWithin(s, a, lo, hi);
  }

  /** With some valid sample, each coordinate of the centroid is that axis' sum over the count. */
  lemma CentroidAxis(s: seq<Item>, a: Axis)
    requires ValidCount(s) > 0
    ensures var c := Centroid(s); (if a == X then c.x else c.y) == SumOf(s, a) / ValidCount(s) as real
  {
  }

  /** The mean of one coordinate over the valid samples lies in any range holding every such coordinate. */
  lemma AxisMeanWithin(s: seq<Item>, a: Axis, lo: real, hi: real)
    requires ValidCount(s) > 0
    requires forall i :: 0 <= i < |s| && ValidSample(s[i]) ==> lo <= Coord(s[i], a).v <= hi
    ensures lo <= SumOf(s, a) / ValidCount(s) as real <= hi
  {
    SumWithin(s, a, lo, hi);
    MeanWithin(SumOf(s, a), ValidCount(s), lo, hi);
  }

  lemma MeanWithin(sum: real, n: nat, lo: real, hi: real)
    requires n > 0 && Scaled(n, lo) <= sum <= Scaled(n, hi)
    ensures lo <= sum / n as real <= hi
  {
    var k := n as real;
    assert k * lo <= sum <= k * hi;
    QuotientWithin(sum, k, lo, hi);
  }

  /** A sum between `k * lo` and `k * hi`, divided by a positive `k`, lies between `lo` and `hi`. */
  lemma QuotientWithin(sum: real, k: real, lo: real, hi: real)
    requires k > 0.0 && k * lo <= sum <= k * hi
    ensures lo <= sum / k <= hi
  {
    var m := sum / k;
    assert m - lo == (sum - k * lo) / k;
    assert hi - m == (k * hi - sum) / k;
  }

  /** When no sample is valid the centroid is the origin. */
  lemma CentroidOfNoSamples(s: seq<Item>)
    requires forall i :: 0 <= i < |s| ==> !ValidSample(s[i])
    ensures Centroid(s) == Point(0.0, 0.0)
  {
    CountNoSamples(s);
  }

  lemma {:induction false} CountNoSamples(s: seq<Item>)
    requires forall i :: 0 <= i < |s| ==> !ValidSample(s[i])
    ensures ValidCount(s) == 0
    decreases |s|
  {
    if s != [] {
      var n := |s| - 1;
      assert forall i :: 0 <= i < n ==> s[..n][i] == s[i];
      CountNoSamples(s[..n]);
    }
  }

  /** Samples (1,1), (NaN,2) and (3,3) have centroid (2,2). */
  lemma CentroidExample(a: Item, b: Item, c: Item)
    requires a.x == Finite(1.0) && a.y == Finite(1.0)
    requires b.x == NonFinite && b.y == Finite(2.0)
    requires c.x == Finite(3.0) && c.y == Finite(3.0)
    ensures Centroid([a, b, c]) == Point(2.0, 2.0)
  {
    assert [a, b, c][..2] == [a, b];
    assert [a, b][..1] == [a];
    assert [a][..0] == [];
    assert ValidCount([a]) == 1 && SumOf([a], X) == 1.0 && SumOf([a], Y) == 1.0;
    assert ValidCount([a, b]) == 1 && SumOf([a, b], X) == 1.0 && SumOf([a, b], Y) == 1.0;
    assert ValidCount([a, b, c]) == 2 && SumOf([a, b, c], X) == 4.0 && SumOf([a, b, c], Y) == 4.0;
  }

  // ---------------------------------------------------------------------
  // Fitting the view of a display to a rectangle

  /** A command the display receives. Neither carries the animation duration. */
  datatype ViewCommand = PanToAbs(target: NumPoint) | ZoomAbs(anchor: NumPoint, scale: Num)

  /**
   * The display collaborator: its size and current scale, and the commands
   * it has received. The animation behind the commands is not modelled.
   */
  class Display {
    var width: real
    var height: real
    var scale: real
    var commands: seq<ViewCommand>

    constructor (width: real, height: real, scale: real)
      ensures this.width == width && this.height == height && this.scale == scale
      ensures commands == []
    {
      this.width, this.height, this.scale := width, height, scale;
      commands := [];
    }

    method PanToAbs(p: NumPoint)
      modifies this`commands
      ensures commands == old(commands) + [ViewCommand.PanToAbs(p)]
    {
      commands := commands + [ViewCommand.PanToAbs(p)];
    }

    method ZoomAbs(p: NumPoint, scale: Num)
      modifies this`commands
      ensures commands == old(commands) + [ViewCommand.ZoomAbs(p, scale)]
    {
      commands := commands + [ViewCommand.ZoomAbs(p, scale)];
    }
  }

  /**
   * The least half-extent around `c` that covers [lo, hi]: it reaches both
   * ends and equals the distance from `c` to one of them.
   */
  function HalfExtent(lo: real, hi: real, c: real): (r: real)
    ensures c - r <= lo && hi <= c + r
    ensures r == c - lo || r == hi - c
    ensures 2.0 * r >= hi - lo
  {
    Max(c - lo, hi - c)
  }

  /** The point the view is centred on: the given centre, else the centre of the bounds. */
  function ResolveCenter(bounds: Rect, center: Option<Point>): (c: NumPoint)
    ensures bounds.Rect? || center.Some? ==> c.x.Finite? && c.y.Finite?
    ensures center.Some? ==> c == NumPoint(Finite(center.value.x), Finite(center.value.y))
  {
    match center
    case Some(p) => NumPoint(Finite(p.x), Finite(p.y))
    case None =>
      if bounds.Rect? then NumPoint(Finite(bounds.CenterX()), Finite(bounds.CenterY()))
      else NumPoint(NonFinite, NonFinite)
  }

  /** The pan target (also the zoom anchor) and the relative zoom factor. */
  datatype Fit = Fit(center: NumPoint, zoom: Num)

  /**
   * The plan of fitViewToBounds for a display of size (w, h) at scale `s`.
   * The zoom is relative: the smaller of the two axis ratios, divided by the
   * current scale. It is finite exactly when the bounds are not NaN and
   * both half-extents and the scale are non-zero; bounds of negative size
   * give negative half-extents and a finite, negative zoom.
   */
  function FitPlan(w: real, h: real, s: real, bounds: Rect, center: Option<Point>): (f: Fit)
    ensures f.center == ResolveCenter(bounds, center)
    ensures f.zoom.Finite? <==>
      bounds.Rect? && s != 0.0 &&
      HalfExtent(bounds.MinX(), bounds.MaxX(), f.center.x.v) != 0.0 &&
      HalfExtent(bounds.MinY(), bounds.MaxY(), f.center.y.v) != 0.0
  {
    var c := ResolveCenter(bounds, center);
    if bounds.Empty? then Fit(c, NonFinite)
    else
      var wb := HalfExtent(bounds.MinX(), bounds.MaxX(), c.x.v);
      var hb := HalfExtent(bounds.MinY(), bounds.MaxY(), c.y.v);
      if wb != 0.0 && hb != 0.0 && s != 0.0 then
        Fit(c, Finite(Min(w / (2.0 * wb), h / (2.0 * hb)) / s))
      else Fit(c, NonFinite)
  }

  /**
   * fitViewToBounds with an optional centre: pans the display to the
   * resolved centre and zooms about that same point. `duration` is accepted
   * and not passed on.
   */
  method FitViewToBoundsAround(display: Display, bounds: Rect, center: Option<Point>, duration: int)
    modifies display`commands
    ensures var f := FitPlan(display.width, display.height, display.scale, bounds, center);
      display.commands == old(display.commands) + [PanToAbs(f.center), ZoomAbs(f.center, f.zoom)]
  {
    var f := FitPlan(display.width, display.height, display.scale, bounds, center);
    display.PanToAbs(f.center);
    display.ZoomAbs(f.center, f.zoom);
  }

  /** fitViewToBounds without a centre: the same as passing no centre to the four-argument form. */
  method FitViewToBounds(display: Display, bounds: Rect, duration: int)
    modifies display`commands
    ensures var f := FitPlan(display.width, display.height, display.scale, bounds, None);
      display.commands == old(display.commands) + [PanToAbs(f.center), ZoomAbs(f.center, f.zoom)]
  {
    FitViewToBoundsAround(display, bounds, None, duration);
  }

  /**
   * Without a centre the view is centred on the middle of the bounds; the
   * box of the two half-extents around the centre covers the bounds.
   */
  lemma FitCentersAndCovers(w: real, h: real, s: real, bounds: Rect, center: Option<Point>)
    requires bounds.Rect?
    ensures var f := FitPlan(w, h, s, bounds, center);
      f.center.x.Finite? && f.center.y.Finite? &&
      (center.None? ==> f.center == NumPoint(Finite((bounds.MinX() + bounds.MaxX()) / 2.0),
                                             Finite((bounds.MinY() + bounds.MaxY()) / 2.0))) &&
      var cx, cy := f.center.x.v, f.center.y.v;
      var wb, hb := HalfExtent(bounds.MinX(), bounds.MaxX(), cx), HalfExtent(bounds.MinY(), bounds.MaxY(), cy);
      Inside(bounds, Rect(cx - wb, cy - hb, 2.0 * wb, 2.0 * hb))
  {
  }

  /**
   * Applied on top of the current scale, the zoom makes the covering box
   * fit the display on both axes and fill it exactly on at least one.
   */
  lemma FitZoomFits(w: real, h: real, s: real, bounds: Rect, center: Option<Point>)
    requires bounds.Rect? && s != 0.0
    requires var c := ResolveCenter(bounds, center);
      HalfExtent(bounds.MinX(), bounds.MaxX(), c.x.v) > 0.0 &&
      HalfExtent(bounds.MinY(), bounds.MaxY(), c.y.v) > 0.0
    ensures var f := FitPlan(w, h, s, bounds, center);
      var wb := HalfExtent(bounds.MinX(), bounds.MaxX(), f.center.x.v);
      var hb := HalfExtent(bounds.MinY(), bounds.MaxY(), f.center.y.v);
      var k := s * f.zoom.v;
      k * 2.0 * wb <= w && k * 2.0 * hb <= h && (k * 2.0 * wb == w || k * 2.0 * hb == h)
  {
    var f := FitPlan(w, h, s, bounds, center);
    var wb := HalfExtent(bounds.MinX(), bounds.MaxX(), f.center.x.v);
    var hb := HalfExtent(bounds.MinY(), bounds.MaxY(), f.center.y.v);
    var m := Min(w / (2.0 * wb), h / (2.0 * hb));
    assert f.zoom.v == m / s;
    assert s * (m / s) == m;
    assert m * (2.0 * wb) <= w by {
      assert m <= w / (2.0 * wb);
      assert (w / (2.0 * wb)) * (2.0 * wb) == w;
    }
    assert m * (2.0 * hb) <= h by {
      assert m <= h / (2.0 * hb);
      assert (h / (2.0 * hb)) * (2.0 * hb) == h;
    }
    if m == w / (2.0 * wb) {
      assert m * (2.0 * wb) == w;
    } else {
      assert m * (2.0 * hb) == h;
    }
  }

  /** A 100x100 display at scale 1 fitted to (0,0,50,50) pans to (25,25) and zooms by 2. */
  lemma FitExample()
    ensures FitPlan(100.0, 100.0, 1.0, Rect(0.0, 0.0, 50.0, 50.0), None)
         == Fit(NumPoint(Finite(25.0), Finite(25.0)), Finite(2.0))
  {
    var b := Rect(0.0, 0.0, 50.0, 50.0);
    assert ResolveCenter(b, None) == NumPoint(Finite(25.0), Finite(25.0));
    assert HalfExtent(0.0, 50.0, 25.0) == 25.0;
    assert 100.0 / (2.0 * 25.0) == 2.0;
    assert Min(2.0, 2.0) / 1.0 == 2.0;
  }
}
