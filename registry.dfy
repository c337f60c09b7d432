/** The list operations the page performs on the registry: looking a window
    up by id, removing it with `splice`, and replacing its geometry. */
module Registry {
  import opened Types

  /** True when `id` is defined and equals the record's id (`data.id === id`;
      an undefined id matches nothing). */
  predicate Matches(r: WindowData, id: Option<string>)
  {
    id == Some(r.id)
  }

  /** No two records share an id: the convention the random ids keep. */
  predicate UniqueIds(records: seq<WindowData>)
  {
    forall i, j :: 0 <= i < j < |records| ==> records[i].id != records[j].id
  }

  /** `findIndex`: the position of the first matching record, or -1. */
  function IndexOf(records: seq<WindowData>, id: Option<string>): (i: int)
    ensures -1 <= i < |records|
    ensures 0 <= i ==> Matches(records[i], id)
    ensures 0 <= i ==> forall j :: 0 <= j < i ==> !Matches(records[j], id)
    ensures i == -1 <==> forall j :: 0 <= j < |records| ==> !Matches(records[j], id)
  {
    if records == [] then -1
    else if Matches(records[0], id) then 0
    else
      var k := IndexOf(records[1..], id);
      if k == -1 then -1 else k + 1
  }

  /** The same search as a loop, the way `Array.prototype.findIndex` runs. */
  method FindIndex(records: seq<WindowData>, id: Option<string>) returns (i: int)
    ensures i == IndexOf(records, id)
  {
    i := 0;
    while i < |records| && !Matches(records[i], id)
      invariant 0 <= i <= |records|
      invariant forall j :: 0 <= j < i ==> !Matches(records[j], id)
    {
      i := i + 1;
    }
    if i == |records| {
      i := -1;
    }
  }

  /** The list without its element at `i`, the others in their order. */
  function RemovedAt<T>(s: seq<T>, i: nat): (r: seq<T>)
    requires i < |s|
    ensures |r| == |s| - 1
    ensures forall j :: 0 <= j < i ==> r[j] == s[j]
    ensures forall j :: i <= j < |r| ==> r[j] == s[j + 1]
    ensures multiset(r) + multiset{s[i]} == multiset(s)
  {
    assert s == s[..i] + [s[i]] + s[i + 1..];
    s[..i] + s[i + 1..]
  }

  /** Where `splice(start, ...)` starts on a list of length `n`: a negative
      start counts back from the end, clamped at 0; a large one is clamped at n. */
  function SpliceStart(n: nat, start: int): (k: nat)
    ensures k <= n
    ensures 0 <= start <= n ==> k == start
    ensures start < 0 && 0 <= n + start ==> k == n + start
    ensures start < 0 && n + start < 0 ==> k == 0
    ensures n < start ==> k == n
  {
    if start < 0 then (if n + start < 0 then 0 else n + start)
    else if start < n then start else n
  }

  /** What `splice(start, 1)` leaves of the list. */
  function SpliceOne<T>(s: seq<T>, start: int): seq<T>
  {
    var k := SpliceStart(|s|, start);
    if k < |s| then RemovedAt(s, k) else s
  }

  /** The unload handler's effect on the list: find the own index, splice it
      out. An absent id gives -1, and `splice(-1, 1)` drops the last record. */
  function Unregistered(records: seq<WindowData>, id: Option<string>): seq<WindowData>
  {
    SpliceOne(records, IndexOf(records, id))
  }

  /** Removal with the index checked first: an absent id changes nothing. */
  function UnregisteredGuarded(records: seq<WindowData>, id: Option<string>): seq<WindowData>
  {
    var i := IndexOf(records, id);
    if i == -1 then records else RemovedAt(records, i)
  }

  /** The registry after the own window reports geometry `d`: None when
      nothing is written (id absent, or all four fields equal), otherwise the
      list with only the matching record's dimensions replaced. */
  function Updated(records: seq<WindowData>, id: Option<string>, d: Dimensions): (r: Option<seq<WindowData>>)
    ensures r.None? <==> IndexOf(records, id) == -1 || records[IndexOf(records, id)].dimensions == d
    ensures r.Some? ==> |r.value| == |records|
    ensures r.Some? ==> forall j :: 0 <= j < |records| ==> r.value[j].id == records[j].id
    ensures r.Some? ==> forall j :: 0 <= j < |records| && j != IndexOf(records, id) ==> r.value[j] == records[j]
    ensures r.Some? ==> Matches(r.value[IndexOf(records, id)], id) && r.value[IndexOf(records, id)].dimensions == d
  {
    var i := IndexOf(records, id);
    if i == -1 || records[i].dimensions == d then None
    else Some(records[i := WindowData(records[i].id, d)])
  }

  /** Removing a present id takes out exactly the record it names. */
  lemma UnregisterPresent(records: seq<WindowData>, i: nat)
    requires i < |records|
    requires forall j :: 0 <= j < i ==> records[j].id != records[i].id
    ensures Unregistered(records, Some(records[i].id)) == RemovedAt(records, i)
    ensures |Unregistered(records, Some(records[i].id))| == |records| - 1
  {
  }

  /** With unique ids, unregistering leaves no record with that id and every
      other record kept, in order. */
  lemma UnregisterUnique(records: seq<WindowData>, i: nat)
    requires UniqueIds(records) && i < |records|
    ensures var r := Unregistered(records, Some(records[i].id));
      && |r| == |records| - 1
      && (forall j :: 0 <= j < |r| ==> r[j].id != records[i].id)
      && (forall j :: 0 <= j < |r| ==> r[j] == records[if j < i then j else j + 1])
      && UniqueIds(r)
  {
  }

  /** An absent id removes the LAST record of a non-empty list, whatever id
      it has; an empty list stays empty. */
  lemma UnregisterAbsent(records: seq<WindowData>, id: Option<string>)
    requires forall j :: 0 <= j < |records| ==> !Matches(records[j], id)
    ensures records == [] ==> Unregistered(records, id) == []
    ensures records != [] ==> Unregistered(records, id) == records[..|records| - 1]
  {
  }

  /** A window that never registered (its id is still undefined) removes
      another window's record: two records in, the first one out. */
  lemma UnregisterUndefinedDropsOther(a: WindowData, b: WindowData)
    ensures Unregistered([a, b], None) == [a]
  {
  }

  /** The guarded removal leaves the list alone for an absent id and agrees
      with the unload handler whenever the id is present. */
  lemma GuardedUnregister(records: seq<WindowData>, id: Option<string>)
    ensures IndexOf(records, id) == -1 ==> UnregisteredGuarded(records, id) == records
    ensures IndexOf(records, id) != -1 ==> UnregisteredGuarded(records, id) == Unregistered(records, id)
  {
  }

  /** Looking an id up after an append: the old position if there was one,
      else the new record's if it matches. */
  lemma {:induction false} IndexOfAppend(records: seq<WindowData>, r: WindowData, id: Option<string>)
    ensures IndexOf(records + [r], id) ==
      if IndexOf(records, id) != -1 then IndexOf(records, id)
      else if Matches(r, id) then |records| else -1
  {
    var s := records + [r];
    assert forall j :: 0 <= j < |records| ==> s[j] == records[j];
    var i, k := IndexOf(records, id), IndexOf(s, id);
    if i != -1 {
      assert Matches(s[i], id);
    } else if Matches(r, id) {
      assert Matches(s[|records|], id);
    } else {
      assert forall j :: 0 <= j < |s| ==> !Matches(s[j], id);
    }
  }

  /** Registering a fresh id and unloading it again restores the list. */
  lemma RegisterThenUnregister(records: seq<WindowData>, id: string, d: Dimensions)
    requires forall j :: 0 <= j < |records| ==> records[j].id != id
    ensures Unregistered(records + [WindowData(id, d)], Some(id)) == records
  {
  }

  /** Right after registering, a frame whose host geometry has not moved
      writes nothing. */
  lemma RegisterThenSameGeometry(records: seq<WindowData>, id: string, d: Dimensions)
    requires forall j :: 0 <= j < |records| ==> records[j].id != id
    ensures Updated(records + [WindowData(id, d)], Some(id), d) == None
  {
  }

  /** Registering a fresh id keeps ids unique. */
  lemma RegisterKeepsUnique(records: seq<WindowData>, id: string, d: Dimensions)
    requires UniqueIds(records)
    requires forall j :: 0 <= j < |records| ==> records[j].id != id
    ensures UniqueIds(records + [WindowData(id, d)])
  {
  }

  /** Two lists with the same ids, position by position, find the same index. */
  lemma IndexOfSameIds(a: seq<WindowData>, b: seq<WindowData>, id: Option<string>)
    requires |a| == |b|
    requires forall j :: 0 <= j < |a| ==> a[j].id == b[j].id
    ensures IndexOf(a, id) == IndexOf(b, id)
  {
  }

  /** Once a change is written, reporting the same geometry again writes
      nothing: the per-frame poll settles after one write. */
  lemma UpdatedSettles(records: seq<WindowData>, id: Option<string>, d: Dimensions)
    requires Updated(records, id, d).Some?
    ensures Updated(Updated(records, id, d).value, id, d) == None
  {
  }

  /** Updating a geometry keeps ids unique. */
  lemma UpdatedKeepsUnique(records: seq<WindowData>, id: Option<string>, d: Dimensions)
    requires UniqueIds(records) && Updated(records, id, d).Some?
    ensures UniqueIds(Updated(records, id, d).value)
  {
  }
}
