/** The indicator boxes a page draws, one per registered window: their style,
    which depends only on the window's position in the registry, and their
    placement, which reprojects the remote window's screen centre into this
    window's own coordinates. The page's boxes are kept as a map from element
    id (the window's id) to box. */
module Boxes {
  import opened Types
  import opened Registry

  /** The numeric style of one box element: left/top in pixels, the side of
      the square, the border hue and the rotation in degrees. */
  datatype Box = Box(left: real, top: real, side: int, hue: int, rotation: int)

  function SideLength(index: nat): int { 100 + index * 50 }
  function Hue(index: nat): int { index * 50 }
  function Rotation(index: nat): int { index * 10 }

  /** Later windows get larger, further-turned boxes of a later hue. */
  lemma StyleIncreasing(i: nat, j: nat)
    requires i < j
    ensures SideLength(i) < SideLength(j) && Hue(i) < Hue(j) && Rotation(i) < Rotation(j)
    ensures SideLength(j) - SideLength(i) == Hue(j) - Hue(i) == 5 * (Rotation(j) - Rotation(i))
  {
  }

  /** Horizontal position of a window's box: its left edge relative to this
      window's left edge, plus half its width. */
  function CentreLeft(d: Dimensions, h: Host): real
  {
    (d.x - h.screenLeft) as real + d.width as real / 2.0
  }

  /** Vertical position, likewise from the top edges and the height. */
  function CentreTop(d: Dimensions, h: Host): real
  {
    (d.y - h.screenTop) as real + d.height as real / 2.0
  }

  /** The position is the remote window's screen centre, seen from this
      window's origin; moving both windows by the same amount changes nothing. */
  lemma CentreIsScreenCentre(d: Dimensions, h: Host, dx: int, dy: int)
    ensures CentreLeft(d, h) + h.screenLeft as real == (d.x as real + (d.x + d.width) as real) / 2.0
    ensures CentreTop(d, h) + h.screenTop as real == (d.y as real + (d.y + d.height) as real) / 2.0
    ensures CentreLeft(d.(x := d.x + dx), h.(screenLeft := h.screenLeft + dx)) == CentreLeft(d, h)
    ensures CentreTop(d.(y := d.y + dy), h.(screenTop := h.screenTop + dy)) == CentreTop(d, h)
  {
  }

  /** The element `renderBox` builds for the record at `index`. */
  function StyledBox(index: nat, r: WindowData, h: Host): Box
  {
    Box(CentreLeft(r.dimensions, h), CentreTop(r.dimensions, h), SideLength(index), Hue(index), Rotation(index))
  }

  /** What `updateRenderBox` does to an existing element: new left and top,
      the rest untouched. */
  function Placed(b: Box, r: WindowData, h: Host): Box
  {
    b.(left := CentreLeft(r.dimensions, h), top := CentreTop(r.dimensions, h))
  }

  /** Both render paths compute the same position, and repositioning a box
      built from the same record and host leaves it as it is. */
  lemma SamePlacement(b: Box, index: nat, r: WindowData, h: Host)
    ensures Placed(b, r, h).left == StyledBox(index, r, h).left
    ensures Placed(b, r, h).top == StyledBox(index, r, h).top
    ensures Placed(StyledBox(index, r, h), r, h) == StyledBox(index, r, h)
  {
  }

  /** The ids of a list of records. */
  function Ids(records: seq<WindowData>): set<string>
  {
    if records == [] then {} else Ids(records[..|records| - 1]) + {records[|records| - 1].id}
  }

  /** Position of the last record with the given id. */
  function LastIndexOf(records: seq<WindowData>, id: string): (j: nat)
    requires id in Ids(records)
    ensures j < |records| && records[j].id == id
    ensures forall k :: j < k < |records| ==> records[k].id != id
  {
    var n := |records| - 1;
    if records[n].id == id then n else LastIndexOf(records[..n], id)
  }

  /** The boxes after `renderBox(index, record)` has run for every record,
      in registry order. */
  function Rendered(boxes: map<string, Box>, records: seq<WindowData>, h: Host): map<string, Box>
  {
    if records == [] then boxes
    else
      var n := |records| - 1;
      Rendered(boxes, records[..n], h)[records[n].id := StyledBox(n, records[n], h)]
  }

  /** The boxes after `updateRenderBox(index, record)` has run for every
      record, in registry order: a record without an element is skipped. */
  function Repositioned(boxes: map<string, Box>, records: seq<WindowData>, h: Host): map<string, Box>
  {
    if records == [] then boxes
    else
      var n := |records| - 1;
      var m := Repositioned(boxes, records[..n], h);
      if records[n].id in m then m[records[n].id := Placed(m[records[n].id], records[n], h)] else m
  }

  /** Rendering adds a box for every record's id and removes none. */
  lemma {:induction false} RenderedKeys(boxes: map<string, Box>, records: seq<WindowData>, h: Host)
    ensures Rendered(boxes, records, h).Keys == boxes.Keys + Ids(records)
  {
    if records != [] {
      RenderedKeys(boxes, records[..|records| - 1], h);
    }
  }

  /** A record's box is the one styled by the last index that carries its id. */
  lemma {:induction false} RenderedAt(boxes: map<string, Box>, records: seq<WindowData>, h: Host, j: nat)
    requires j < |records|
    requires forall k :: j < k < |records| ==> records[k].id != records[j].id
    ensures records[j].id in Rendered(boxes, records, h)
    ensures Rendered(boxes, records, h)[records[j].id] == StyledBox(j, records[j], h)
  {
    var n := |records| - 1;
    if j < n {
      RenderedAt(boxes, records[..n], h, j);
    }
  }

  /** Boxes of ids outside the registry are left alone by rendering. */
  lemma {:induction false} RenderedElsewhere(boxes: map<string, Box>, records: seq<WindowData>, h: Host, id: string)
    requires id !in Ids(records)
    ensures id in Rendered(boxes, records, h) <==> id in boxes
    ensures id in boxes ==> Rendered(boxes, records, h)[id] == boxes[id]
  {
    if records != [] {
      RenderedElsewhere(boxes, records[..|records| - 1], h, id);
    }
  }

  /** With unique ids, after rendering every record has exactly the box its
      own index gives. */
  lemma RenderedUnique(boxes: map<string, Box>, records: seq<WindowData>, h: Host)
    requires UniqueIds(records)
    ensures forall j :: 0 <= j < |records| ==>
      records[j].id in Rendered(boxes, records, h) && Rendered(boxes, records, h)[records[j].id] == StyledBox(j, records[j], h)
  {
  }

  /** Repositioning never adds or removes an element. */
  lemma {:induction false} RepositionedKeys(boxes: map<string, Box>, records: seq<WindowData>, h: Host)
    ensures Repositioned(boxes, records, h).Keys == boxes.Keys
  {
    if records != [] {
      RepositionedKeys(boxes, records[..|records| - 1], h);
    }
  }

  /** Repositioning keeps each element's size, hue and rotation. */
  lemma {:induction false} RepositionedKeepsStyle(boxes: map<string, Box>, records: seq<WindowData>, h: Host, id: string)
    requires id in boxes
    ensures id in Repositioned(boxes, records, h)
    ensures Repositioned(boxes, records, h)[id] == boxes[id].(left := Repositioned(boxes, records, h)[id].left, top := Repositioned(boxes, records, h)[id].top)
  {
    if records != [] {
      RepositionedKeepsStyle(boxes, records[..|records| - 1], h, id);
    }
  }

  /** An element of a registered id ends where the last record with that id
      puts it, keeping its style. */
  lemma {:induction false} RepositionedAt(boxes: map<string, Box>, records: seq<WindowData>, h: Host, j: nat)
    requires j < |records| && records[j].id in boxes
    requires forall k :: j < k < |records| ==> records[k].id != records[j].id
    ensures records[j].id in Repositioned(boxes, records, h)
    ensures Repositioned(boxes, records, h)[records[j].id] == Placed(boxes[records[j].id], records[j], h)
  {
    var n := |records| - 1;
    var id := records[j].id;
    if j < n {
      RepositionedAt(boxes, records[..n], h, j);
    } else {
      RepositionedKeepsStyle(boxes, records[..n], h, id);
    }
  }

  /** Elements of ids outside the registry are not moved. */
  lemma {:induction false} RepositionedElsewhere(boxes: map<string, Box>, records: seq<WindowData>, h: Host, id: string)
    requires id in boxes && id !in Ids(records)
    ensures id in Repositioned(boxes, records, h)
    ensures Repositioned(boxes, records, h)[id] == boxes[id]
  {
    if records != [] {
      RepositionedElsewhere(boxes, records[..|records| - 1], h, id);
    }
  }

  /** `renderBox` and `updateRenderBox` agree: repositioning freshly rendered
      boxes with the same registry and host changes nothing. */
  lemma RenderThenReposition(boxes: map<string, Box>, records: seq<WindowData>, h: Host)
    ensures Repositioned(Rendered(boxes, records, h), records, h) == Rendered(boxes, records, h)
  {
    var drawn := Rendered(boxes, records, h);
    var moved := Repositioned(drawn, records, h);
    RepositionedKeys(drawn, records, h);
    forall id | id in drawn
      ensures moved[id] == drawn[id]
    {
      if id in Ids(records) {
        var j := LastIndexOf(records, id);
        RenderedAt(boxes, records, h, j);
        RepositionedAt(drawn, records, h, j);
      } else {
        RepositionedElsewhere(drawn, records, h, id);
      }
    }
  }
}
