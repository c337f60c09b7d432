/** One page's state and the handlers that change it: the registry it last
    loaded, its own id, the enclosing world rectangle, the boxes on the page
    and the values it has written to the shared "windowData" key. */
module Session {
  import opened Types
  import opened Registry
  import opened Bounds
  import opened Boxes

  class WindowSession {
    /** The registry as this page last loaded it; None until it is loaded. */
    var windowData: Option<seq<WindowData>>
    /** This page's own id; None until the page registers. */
    var currentWindowId: Option<string>
    /** The enclosing rectangle; None stands for the infinite values that an
        empty registry leaves. */
    var worldDimension: Option<Dimensions>
    /** The box elements on the page, by element id. */
    var boxes: map<string, Box>
    /** Every list written to the shared key, oldest first. */
    var writes: seq<seq<WindowData>>

    constructor ()
      ensures windowData == None && currentWindowId == None
      ensures worldDimension == Some(Dimensions(0, 0, 0, 0))
      ensures boxes == map[] && writes == []
    {
      windowData := None;
      currentWindowId := None;
      worldDimension := Some(Dimensions(0, 0, 0, 0));
      boxes := map[];
      writes := [];
    }

    /** `updateGlobalWindowDimensions`: store the rectangle enclosing `records`. */
    method UpdateGlobalWindowDimensions(records: seq<WindowData>)
      modifies this`worldDimension
      ensures worldDimension == GlobalDimensions(records)
    {
      worldDimension := ComputeGlobalDimensions(records);
    }

    /** `renderBox`: drop the element with the record's id, if any, and add a
        freshly styled one. Removing yields `undefined`, so the early return
        never fires. */
    method RenderBox(index: nat, r: WindowData, h: Host)
      modifies this`boxes
      ensures boxes == old(boxes)[r.id := StyledBox(index, r, h)]
      ensures r.id in boxes && boxes.Keys == old(boxes).Keys + {r.id}
    {
      if r.id in boxes {
        boxes := boxes - {r.id};
      }
      boxes := boxes[r.id := Box(CentreLeft(r.dimensions, h), CentreTop(r.dimensions, h),
                                 SideLength(index), Hue(index), Rotation(index))];
    }

    /** `updateRenderBox`: move the record's element, when there is one. */
    method UpdateRenderBox(index: nat, r: WindowData, h: Host)
      modifies this`boxes
      ensures r.id !in old(boxes) ==> boxes == old(boxes)
      ensures r.id in old(boxes) ==> boxes == old(boxes)[r.id := Placed(old(boxes)[r.id], r, h)]
      ensures boxes.Keys == old(boxes).Keys
    {
      if r.id !in boxes {
        return;
      }
      var element := boxes[r.id];
      boxes := boxes[r.id := element.(left := CentreLeft(r.dimensions, h), top := CentreTop(r.dimensions, h))];
    }

    /** `records.forEach(renderBox)`. */
    method RenderAll(records: seq<WindowData>, h: Host)
      modifies this`boxes
      ensures boxes == Rendered(old(boxes), records, h)
    {
      for i := 0 to |records|
        invariant boxes == Rendered(old(boxes), records[..i], h)
      {
        assert records[..i + 1][..i] == records[..i];
        RenderBox(i, records[i], h);
      }
      assert records[..|records|] == records;
    }

    /** `records.forEach(updateRenderBox)`. */
    method UpdateRenderAll(records: seq<WindowData>, h: Host)
      modifies this`boxes
      ensures boxes == Repositioned(old(boxes), records, h)
    {
      for i := 0 to |records|
        invariant boxes == Repositioned(old(boxes), records[..i], h)
      {
        assert records[..i + 1][..i] == records[..i];
        UpdateRenderBox(i, records[i], h);
      }
      assert records[..|records|] == records;
    }

    /** The delayed part of `onload`: take the registry read from the shared
        key, append this window under the fresh id `id`, publish it and draw
        every box. */
    method Register(stored: seq<WindowData>, id: string, h: Host)
      modifies this
      ensures windowData == Some(stored + [WindowData(id, ThisWindowDimensions(h))])
      ensures currentWindowId == Some(id)
      ensures worldDimension == GlobalDimensions(windowData.value)
      ensures writes == old(writes) + [windowData.value]
      ensures boxes == Rendered(old(boxes), windowData.value, h)
    {
      var records := stored;
      var dimensions := ThisWindowDimensions(h);
      currentWindowId := Some(id);
      records := records + [WindowData(id, dimensions)];
      windowData := Some(records);
      UpdateGlobalWindowDimensions(records);
      writes := writes + [records];
      RenderAll(records, h);
    }

    /** The `unload` handler: splice the own record out at the index
        `findIndex` returns and publish the list. With the registry never
        loaded the handler throws (`ok` false) and nothing changes. */
    method Unload() returns (ok: bool)
      modifies this`windowData, this`writes
      ensures ok <==> old(windowData).Some?
      ensures !ok ==> windowData == old(windowData) && writes == old(writes)
      ensures ok ==> windowData == Some(Unregistered(old(windowData).value, currentWindowId))
      ensures ok ==> writes == old(writes) + [windowData.value]
    {
      if windowData.None? {
        return false;
      }
      var records := windowData.value;
      var currentWindowIndex := FindIndex(records, currentWindowId);
      records := SpliceOne(records, currentWindowIndex);
      windowData := Some(records);
      writes := writes + [records];
      ok := true;
    }

    /** `updateWindowDimensions`, run on every frame: when the own record's
        geometry differs from the host's in any field, replace it, recompute
        the world rectangle, move every box and publish the list. */
    method UpdateWindowDimensions(h: Host) returns (written: bool)
      modifies this`windowData, this`worldDimension, this`boxes, this`writes
      ensures written <==> (old(windowData).Some? &&
        Updated(old(windowData).value, currentWindowId, ThisWindowDimensions(h)).Some?)
      ensures !written ==>
        windowData == old(windowData) && worldDimension == old(worldDimension) &&
        boxes == old(boxes) && writes == old(writes)
      ensures written ==>
        && windowData == Updated(old(windowData).value, currentWindowId, ThisWindowDimensions(h))
        && worldDimension == GlobalDimensions(windowData.value)
        && boxes == Repositioned(old(boxes), windowData.value, h)
        && writes == old(writes) + [windowData.value]
    {
      if windowData.None? {
        return false;
      }
      var records := windowData.value;
      var currentWindowIndex := FindIndex(records, currentWindowId);
      if currentWindowIndex == -1 {
        return false;
      }
      var newDimensions := ThisWindowDimensions(h);
      var oldDimensions := records[currentWindowIndex].dimensions;
      if newDimensions.x != oldDimensions.x ||
         newDimensions.y != oldDimensions.y ||
         newDimensions.width != oldDimensions.width ||
         newDimensions.height != oldDimensions.height
      {
        records := records[currentWindowIndex := records[currentWindowIndex].(dimensions := newDimensions)];
        windowData := Some(records);
        UpdateGlobalWindowDimensions(records);
        UpdateRenderAll(records, h);
        writes := writes + [records];
        written := true;
      } else {
        written := false;
      }
    }
  }

  /** A window registers, its poll then sees the same geometry and writes
      nothing, and its unload restores the list it found. */
  method RegisterPollUnload(stored: seq<WindowData>, id: string, h: Host)
    requires forall j :: 0 <= j < |stored| ==> stored[j].id != id
  {
    var page := new WindowSession();
    page.Register(stored, id, h);
    var written := page.UpdateWindowDimensions(h);
    RegisterThenSameGeometry(stored, id, ThisWindowDimensions(h));
    assert !written;
    var ok := page.Unload();
    RegisterThenUnregister(stored, id, ThisWindowDimensions(h));
    assert ok && page.windowData == Some(stored);
    assert page.writes == [stored + [WindowData(id, ThisWindowDimensions(h))], stored];
  }
}
