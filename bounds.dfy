/** The smallest screen rectangle enclosing every registered window, which
    each page keeps as its `worldDimension`. */
module Bounds {
  import opened Types

  /** Running extremes: leftmost and topmost edges, rightmost and lowest. */
  datatype Extent = Extent(left: int, top: int, right: int, bottom: int)

  function Min(a: int, b: int): int { if a <= b then a else b }
  function Max(a: int, b: int): int { if a <= b then b else a }

  /** The edges of one window's rectangle. */
  function Edges(d: Dimensions): Extent
  {
    Extent(d.x, d.y, d.x + d.width, d.y + d.height)
  }

  /** `inner` lies inside `outer`. */
  predicate Within(inner: Extent, outer: Extent)
  {
    outer.left <= inner.left && outer.top <= inner.top &&
    inner.right <= outer.right && inner.bottom <= outer.bottom
  }

  /** One pass of the loop body: Math.min on left and top, Math.max on
      right and bottom. None is the seed (left = top = Infinity,
      right = bottom = -Infinity), against which every window wins. */
  function Include(acc: Option<Extent>, d: Dimensions): (e: Extent)
    ensures Within(Edges(d), e)
    ensures acc.Some? ==> Within(acc.value, e)
    ensures e.left == d.x || (acc.Some? && e.left == acc.value.left)
    ensures e.top == d.y || (acc.Some? && e.top == acc.value.top)
    ensures e.right == d.x + d.width || (acc.Some? && e.right == acc.value.right)
    ensures e.bottom == d.y + d.height || (acc.Some? && e.bottom == acc.value.bottom)
  {
    match acc
    case None => Edges(d)
    case Some(b) =>
      Extent(Min(b.left, d.x), Min(b.top, d.y), Max(b.right, d.x + d.width), Max(b.bottom, d.y + d.height))
  }

  /** The extremes after the loop has visited every record, in order. */
  function Enclosing(records: seq<WindowData>): (r: Option<Extent>)
    ensures r.None? <==> records == []
  {
    if records == [] then None
    else
      var n := |records| - 1;
      Some(Include(Enclosing(records[..n]), records[n].dimensions))
  }

  /** The rectangle the extremes describe: width right - left, height bottom - top. */
  function AsDimensions(e: Extent): Dimensions
  {
    Dimensions(e.left, e.top, e.right - e.left, e.bottom - e.top)
  }

  /** What `worldDimension` becomes; None stands for the infinite values an
      empty registry leaves. */
  function GlobalDimensions(records: seq<WindowData>): Option<Dimensions>
  {
    match Enclosing(records)
    case None => None
    case Some(e) => Some(AsDimensions(e))
  }

  /** The loop of `updateGlobalWindowDimensions`. */
  method ComputeGlobalDimensions(records: seq<WindowData>) returns (world: Option<Dimensions>)
    ensures world == GlobalDimensions(records)
  {
    var acc: Option<Extent> := None;
    for i := 0 to |records|
      invariant acc == Enclosing(records[..i])
    {
      assert records[..i + 1][..i] == records[..i];
      acc := Some(Include(acc, records[i].dimensions));
    }
    assert records[..|records|] == records;
    world := match acc
      case None => None
      case Some(e) => Some(AsDimensions(e));
  }

  /** Every registered window lies inside the enclosing rectangle. */
  lemma {:induction false} EnclosingContains(records: seq<WindowData>, i: nat)
    requires i < |records|
    ensures Enclosing(records).Some?
    ensures Within(Edges(records[i].dimensions), Enclosing(records).value)
  {
    var n := |records| - 1;
    if i < n {
      EnclosingContains(records[..n], i);
    }
  }

  /** Each edge of the enclosing rectangle is an edge of some window. */
  lemma {:induction false} EnclosingAttained(records: seq<WindowData>)
    requires records != []
    ensures var e := Enclosing(records).value;
      && (exists i :: 0 <= i < |records| && Edges(records[i].dimensions).left == e.left)
      && (exists i :: 0 <= i < |records| && Edges(records[i].dimensions).top == e.top)
      && (exists i :: 0 <= i < |records| && Edges(records[i].dimensions).right == e.right)
      && (exists i :: 0 <= i < |records| && Edges(records[i].dimensions).bottom == e.bottom)
  {
    var n := |records| - 1;
    var e, last := Enclosing(records).value, Edges(records[n].dimensions);
    if n == 0 {
      assert records[..0] == [];
      assert e == last;
    } else {
      var prefix := records[..n];
      EnclosingAttained(prefix);
      var p := Enclosing(prefix).value;
      assert forall i :: 0 <= i < n ==> prefix[i] == records[i];
      if e.left != last.left {
        var i :| 0 <= i < n && Edges(prefix[i].dimensions).left == p.left;
      }
      if e.top != last.top {
        var i :| 0 <= i < n && Edges(prefix[i].dimensions).top == p.top;
      }
      if e.right != last.right {
        var i :| 0 <= i < n && Edges(prefix[i].dimensions).right == p.right;
      }
      if e.bottom != last.bottom {
        var i :| 0 <= i < n && Edges(prefix[i].dimensions).bottom == p.bottom;
      }
    }
  }

  /** For a non-empty registry the world rectangle starts at the smallest x
      and y, and reaches the largest right and bottom edges. */
  lemma GlobalDimensionsBound(records: seq<WindowData>)
    requires records != []
    ensures GlobalDimensions(records).Some?
    ensures var w := GlobalDimensions(records).value;
      forall i :: 0 <= i < |records| ==>
        var d := records[i].dimensions;
        w.x <= d.x && w.y <= d.y && d.x + d.width <= w.x + w.width && d.y + d.height <= w.y + w.height
    ensures var w := GlobalDimensions(records).value;
      && (exists i :: 0 <= i < |records| && records[i].dimensions.x == w.x)
      && (exists i :: 0 <= i < |records| && records[i].dimensions.y == w.y)
      && (exists i :: 0 <= i < |records| && records[i].dimensions.x + records[i].dimensions.width == w.x + w.width)
      && (exists i :: 0 <= i < |records| && records[i].dimensions.y + records[i].dimensions.height == w.y + w.height)
  {
    forall i | 0 <= i < |records| ensures Within(Edges(records[i].dimensions), Enclosing(records).value) {
      EnclosingContains(records, i);
    }
    EnclosingAttained(records);
  }

  /** Windows at (0,0) sized 100x100 and at (50,50) sized 200x200 span (0,0) to (250,250). */
  lemma TwoWindowsExample(a: string, b: string)
    ensures GlobalDimensions([WindowData(a, Dimensions(0, 0, 100, 100)), WindowData(b, Dimensions(50, 50, 200, 200))])
      == Some(Dimensions(0, 0, 250, 250))
  {
    var records := [WindowData(a, Dimensions(0, 0, 100, 100)), WindowData(b, Dimensions(50, 50, 200, 200))];
    assert records[..1][..0] == [];
    assert Enclosing(records[..1]) == Some(Extent(0, 0, 100, 100));
  }
}
