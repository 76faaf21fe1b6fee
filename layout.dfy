/**
 * The list computations of the layout editor (frontend/src/pages/Planner.jsx):
 * adding, merging into and filtering out placed items, the save payload that
 * strips the editor-only `uniqueId`, the hydration of a stored project, and
 * the position, size and rotation updates with their configured bounds.
 *
 * The catalog record an item was created from is spread into the item; the
 * editor never reads it, so it is carried as an opaque value of type `P`.
 */
module Layout {
  import opened Wrappers
  import opened Seqs

  const DefaultTitle := "My New Room Design"
  /** Position and size given to an item added from the catalog. */
  const AddedX := 50
  const AddedY := 50
  const AddedSize := 100
  /** Size given on load to an item whose stored width or height is falsy. */
  const FallbackSize := 100
  /** The resize handle's `minConstraints` and `maxConstraints`. */
  const MinSize := 50
  const MaxSize := 400
  /** Rotation step of the two rotate buttons. */
  const RotationStep := 90

  /** An item on the canvas: the catalog fields plus the editor's own fields. */
  datatype CanvasItem<P> = CanvasItem(
    fields: P,
    uniqueId: string,
    x: int,
    y: int,
    width: int,
    height: int,
    rotation: int)

  /** An item as saved and as loaded back: everything but `uniqueId`; a loaded size may be absent. */
  datatype DocItem<P> = DocItem(
    fields: P,
    x: int,
    y: int,
    width: Option<int>,
    height: Option<int>,
    rotation: int)

  /** The `updates` object of `updateItem`: the fields it carries overwrite the item's. */
  datatype Patch = Patch(
    x: Option<int>,
    y: Option<int>,
    width: Option<int>,
    height: Option<int>,
    rotation: Option<int>)

  datatype SavePayload<P> = SavePayload(title: string, roomImageURL: string, itemsUsed: seq<DocItem<P>>)

  /** `POST /projects/save` for a new design, `PUT /projects/update/:id` for an existing one. */
  datatype SaveRequest<P> = Post(payload: SavePayload<P>) | Put(id: string, payload: SavePayload<P>)

  /** A project as the user's project list returns it. */
  datatype ProjectDoc<P> = ProjectDoc(id: string, title: string, roomImageURL: string, itemsUsed: seq<DocItem<P>>)

  function Ids<P>(items: seq<CanvasItem<P>>): (r: seq<string>)
    ensures |r| == |items|
    ensures forall k :: 0 <= k < |items| ==> r[k] == items[k].uniqueId
  {
    seq(|items|, k requires 0 <= k < |items| => items[k].uniqueId)
  }

  // ----- add -------------------------------------------------------------

  /** The record `addItemToCanvas` builds from a catalog item and a new id. */
  function NewItem<P>(item: P, uid: string): (r: CanvasItem<P>)
    ensures r.fields == item && r.uniqueId == uid
    ensures r.x == AddedX && r.y == AddedY && r.width == AddedSize && r.height == AddedSize && r.rotation == 0
  {
    CanvasItem(item, uid, AddedX, AddedY, AddedSize, AddedSize, 0)
  }

  // ----- update ----------------------------------------------------------

  /** `{ ...item, ...updates }`. */
  function Merge<P>(it: CanvasItem<P>, p: Patch): (r: CanvasItem<P>)
    ensures r.fields == it.fields && r.uniqueId == it.uniqueId
    ensures r.x == p.x.GetOr(it.x) && r.y == p.y.GetOr(it.y)
    ensures r.width == p.width.GetOr(it.width) && r.height == p.height.GetOr(it.height)
    ensures r.rotation == p.rotation.GetOr(it.rotation)
  {
    CanvasItem(it.fields, it.uniqueId, p.x.GetOr(it.x), p.y.GetOr(it.y),
               p.width.GetOr(it.width), p.height.GetOr(it.height), p.rotation.GetOr(it.rotation))
  }

  /** The list `updateItem` computes: the patch is merged into every item with that id. */
  function UpdateAll<P>(items: seq<CanvasItem<P>>, uid: string, p: Patch): (r: seq<CanvasItem<P>>)
    ensures |r| == |items| && Ids(r) == Ids(items)
    ensures forall k :: 0 <= k < |items| && items[k].uniqueId != uid ==> r[k] == items[k]
    ensures forall k :: 0 <= k < |items| && items[k].uniqueId == uid ==> r[k] == Merge(items[k], p)
  {
    seq(|items|, k requires 0 <= k < |items| =>
      if items[k].uniqueId == uid then Merge(items[k], p) else items[k])
  }

  /** A stale id leaves the list exactly as it was. */
  lemma UpdateUnknownIdIsIdentity<P>(items: seq<CanvasItem<P>>, uid: string, p: Patch)
    requires uid !in Ids(items)
    ensures UpdateAll(items, uid, p) == items
  {
    forall k | 0 <= k < |items| ensures items[k].uniqueId != uid {
      assert Ids(items)[k] == items[k].uniqueId;
    }
  }

  // ----- remove ----------------------------------------------------------

  /** The list `removeItem` computes: every item with that id is dropped. */
  function Without<P>(items: seq<CanvasItem<P>>, uid: string): (r: seq<CanvasItem<P>>)
    ensures forall it :: it in r ==> it in items && it.uniqueId != uid
    ensures forall it :: it in items && it.uniqueId != uid ==> it in r
  {
    Filter(items, (it: CanvasItem<P>) => it.uniqueId != uid)
  }

  /** After removal no item carries the id, and the rest keep their order. */
  lemma WithoutProperties<P>(items: seq<CanvasItem<P>>, uid: string)
    ensures uid !in Ids(Without(items, uid))
    ensures IsSubsequence(Without(items, uid), items)
    ensures Distinct(Ids(items)) ==> Distinct(Ids(Without(items, uid)))
  {
    var r := Without(items, uid);
    forall k | 0 <= k < |r| ensures Ids(r)[k] != uid {
      assert r[k] in r;
    }
    FilterIsSubsequence(items, (it: CanvasItem<P>) => it.uniqueId != uid);
    if Distinct(Ids(items)) {
      DistinctIdsFilter(items, (it: CanvasItem<P>) => it.uniqueId != uid);
    }
  }

  /** Filtering a list whose ids are distinct gives a list whose ids are distinct. */
  lemma {:induction false} DistinctIdsFilter<P>(items: seq<CanvasItem<P>>, keep: CanvasItem<P> -> bool)
    requires Distinct(Ids(items))
    ensures Distinct(Ids(Filter(items, keep)))
  {
    if items != [] {
      var tail := items[1..];
      assert Ids(tail) == Ids(items)[1..];
      DistinctIdsFilter(tail, keep);
      var t := Filter(tail, keep);
      if keep(items[0]) {
        forall k | 0 <= k < |t| ensures Ids(t)[k] != items[0].uniqueId {
          assert t[k] in tail;
          var m :| 0 <= m < |tail| && tail[m] == t[k];
          assert Ids(items)[m + 1] == t[k].uniqueId;
        }
        DistinctIdsCons(items[0], t);
      }
    }
  }

  /** Putting an item with a new id in front keeps the ids distinct. */
  lemma DistinctIdsCons<P>(x: CanvasItem<P>, t: seq<CanvasItem<P>>)
    requires Distinct(Ids(t))
    requires forall k :: 0 <= k < |t| ==> Ids(t)[k] != x.uniqueId
    ensures Distinct(Ids([x] + t))
  {
    var ids := Ids([x] + t);
    forall i, j | 0 <= i < j < |ids| ensures ids[i] != ids[j] {
      assert ids[j] == Ids(t)[j - 1];
      if i > 0 {
        assert ids[i] == Ids(t)[i - 1];
      }
    }
  }

  // ----- save ------------------------------------------------------------

  /** `({ uniqueId, ...rest }) => rest`. */
  function Strip<P>(it: CanvasItem<P>): (d: DocItem<P>)
    ensures d.fields == it.fields && d.x == it.x && d.y == it.y && d.rotation == it.rotation
    ensures d.width == Some(it.width) && d.height == Some(it.height)
  {
    DocItem(it.fields, it.x, it.y, Some(it.width), Some(it.height), it.rotation)
  }

  function StripAll<P>(items: seq<CanvasItem<P>>): (r: seq<DocItem<P>>)
    ensures |r| == |items|
    ensures forall k :: 0 <= k < |items| ==> r[k] == Strip(items[k])
  {
    seq(|items|, k requires 0 <= k < |items| => Strip(items[k]))
  }

  /**
   * What `saveProject` sends: nothing without a truthy room image; otherwise
   * the title, the room image and the stripped items, as an update when the
   * route has a project id and as a creation otherwise.
   */
  function SaveRequestFor<P>(routeId: Option<string>, title: string, roomImage: Option<string>,
                             items: seq<CanvasItem<P>>): (r: Option<SaveRequest<P>>)
    ensures r.None? <==> !Truthy(roomImage)
    ensures r.Some? ==> (r.value.Put? <==> Truthy(routeId))
    ensures r.Some? && r.value.Put? ==> r.value.id == routeId.value
    ensures r.Some? ==> r.value.payload.title == title && r.value.payload.roomImageURL == roomImage.value
    ensures r.Some? ==> r.value.payload.itemsUsed == StripAll(items)
  {
    if !Truthy(roomImage) then None
    else
      var payload := SavePayload(title, roomImage.value, StripAll(items));
      if Truthy(routeId) then Some(Put(routeId.value, payload)) else Some(Post(payload))
  }

  // ----- load ------------------------------------------------------------

  /** One stored item on load: a new id, and a falsy width or height replaced by 100. */
  function HydrateItem<P>(d: DocItem<P>, uid: string): (r: CanvasItem<P>)
    ensures r.uniqueId == uid && r.fields == d.fields
    ensures r.x == d.x && r.y == d.y && r.rotation == d.rotation
    ensures r.width == (if NumTruthy(d.width) then d.width.value else FallbackSize)
    ensures r.height == (if NumTruthy(d.height) then d.height.value else FallbackSize)
  {
    CanvasItem(d.fields, uid,  d.x, d.y,
               if NumTruthy(d.width) then d.width.value else FallbackSize,
               if NumTruthy(d.height) then d.height.value else FallbackSize,
               d.rotation)
  }

  /** The stored items mapped in order, the k-th getting the k-th fresh id. */
  function Hydrate<P>(docs: seq<DocItem<P>>, ids: seq<string>): (r: seq<CanvasItem<P>>)
    requires |ids| == |docs|
    ensures |r| == |docs| && Ids(r) == ids
    ensures forall k :: 0 <= k < |docs| ==> r[k] == HydrateItem(docs[k], ids[k])
  {
    seq(|docs|, k requires 0 <= k < |docs| => HydrateItem(docs[k], ids[k]))
  }

  /**
   * Round trip on the save payload: hydrating the stripped items gives back
   * every item, field for field, except the id, provided no width or height
   * is 0. A real save keeps less: the server's strict schema drops every
   * field except `_id`, `imageURL` and the geometry (Integration.SavedGeometry).
   */
  lemma HydrateStripped<P>(items: seq<CanvasItem<P>>, ids: seq<string>)
    requires |ids| == |items|
    requires forall k :: 0 <= k < |items| ==> items[k].width != 0 && items[k].height != 0
    ensures Hydrate(StripAll(items), ids) == seq(|items|, k requires 0 <= k < |items| => items[k].(uniqueId := ids[k]))
  {
  }

  /** With the same ids, hydrating the save payload gives back the very same list. */
  lemma HydrateStrippedSameIds<P>(items: seq<CanvasItem<P>>)
    requires forall k :: 0 <= k < |items| ==> items[k].width != 0 && items[k].height != 0
    ensures Hydrate(StripAll(items), Ids(items)) == items
  {
    HydrateStripped(items, Ids(items));
  }

  /** A saved width or height of 0 does not survive the round trip: it comes back as 100. */
  lemma ZeroSizeNotRestored<P>(it: CanvasItem<P>, uid: string)
    requires it.width == 0
    ensures HydrateItem(Strip(it), uid).width == FallbackSize != it.width
  {
  }

  /** Whether `k` is the first position of a project with id `id`. */
  ghost predicate FirstWithId<P>(projects: seq<ProjectDoc<P>>, id: string, k: int) {
    0 <= k < |projects| && projects[k].id == id && forall j :: 0 <= j < k ==> projects[j].id != id
  }

  /** The position `projects.find(p => p._id === id)` stops at. */
  function FindIndex<P>(projects: seq<ProjectDoc<P>>, id: string): (r: Option<nat>)
    ensures r.None? <==> forall k :: 0 <= k < |projects| ==> projects[k].id != id
    ensures r.Some? ==> FirstWithId(projects, id, r.value)
  {
    if projects == [] then None
    else if projects[0].id == id then Some(0)
    else
      var r := FindIndex(projects[1..], id);
      if r.None? then None else Some(r.value + 1)
  }

  /** `projects.find(p => p._id === id)`: the first project with that id. */
  function FindProject<P>(projects: seq<ProjectDoc<P>>, id: string): (r: Option<ProjectDoc<P>>)
    ensures r.None? <==> forall k :: 0 <= k < |projects| ==> projects[k].id != id
    ensures r.Some? ==> exists k :: FirstWithId(projects, id, k) && projects[k] == r.value
  {
    var i := FindIndex(projects, id);
    if i.None? then None else Some(projects[i.value])
  }

  /**
   * The project `init` loads into the editor: none when the catalog request
   * fails (the exception skips the rest), when the route has no id, when the
   * project list request fails, or when no listed project has the id.
   */
  function LoadTarget<P, C>(routeId: Option<string>, catalog: Fetch<C>,
                            projects: Fetch<seq<ProjectDoc<P>>>): (r: Option<ProjectDoc<P>>)
    ensures catalog.Failed? || !Truthy(routeId) || projects.Failed? ==> r.None?
    ensures catalog.Loaded? && Truthy(routeId) && projects.Loaded? ==> r == FindProject(projects.body, routeId.value)
  {
    if catalog.Failed? || !Truthy(routeId) || projects.Failed? then None
    else FindProject(projects.body, routeId.value)
  }

  // ----- drag, resize, rotate ---------------------------------------------

  /** The canvas is 800x600 with a room image and 600x400 without. */
  function ParentWidth(hasRoom: bool): int {
    if hasRoom then 800 else 600
  }

  function ParentHeight(hasRoom: bool): int {
    if hasRoom then 600 else 400
  }

  /** Clamping to `[lo, hi]`; when the range is empty the lower bound wins. */
  function Clamp(v: int, lo: int, hi: int): (r: int)
    ensures lo <= r
    ensures lo <= hi ==> r <= hi
    ensures lo <= v <= hi ==> r == v
    ensures v < lo ==> r == lo
    ensures lo <= hi < v ==> r == hi
  {
    var m := if v < hi then v else hi;
    if m < lo then lo else m
  }

  /**
   * The update the drag handler sends on drag stop: only the position,
   * clamped so that the item's box stays inside the canvas.
   */
  function DragStopPatch<P>(it: CanvasItem<P>, rawX: int, rawY: int, hasRoom: bool): (p: Patch)
    ensures p.width.None? && p.height.None? && p.rotation.None?
    ensures p.x.Some? && p.y.Some?
    ensures 0 <= p.x.value && 0 <= p.y.value
    ensures it.width <= ParentWidth(hasRoom) ==> p.x.value + it.width <= ParentWidth(hasRoom)
    ensures it.height <= ParentHeight(hasRoom) ==> p.y.value + it.height <= ParentHeight(hasRoom)
    ensures 0 <= rawX <= ParentWidth(hasRoom) - it.width ==> p.x.value == rawX
    ensures 0 <= rawY <= ParentHeight(hasRoom) - it.height ==> p.y.value == rawY
  {
    Patch(Some(Clamp(rawX, 0, ParentWidth(hasRoom) - it.width)),
          Some(Clamp(rawY, 0, ParentHeight(hasRoom) - it.height)),
          None, None, None)
  }

  /** The update the resize handle sends on resize stop: only the size, within [50, 400]. */
  function ResizeStopPatch(rawW: int, rawH: int): (p: Patch)
    ensures p.x.None? && p.y.None? && p.rotation.None?
    ensures p.width.Some? && MinSize <= p.width.value <= MaxSize
    ensures p.height.Some? && MinSize <= p.height.value <= MaxSize
    ensures MinSize <= rawW <= MaxSize ==> p.width.value == rawW
    ensures MinSize <= rawH <= MaxSize ==> p.height.value == rawH
  {
    Patch(None, None, Some(Clamp(rawW, MinSize, MaxSize)), Some(Clamp(rawH, MinSize, MaxSize)), None)
  }

  /** The update a rotate button sends: the rotation moved by 90 degrees, never reduced modulo 360. */
  function RotatePatch<P>(it: CanvasItem<P>, clockwise: bool): (p: Patch)
    ensures p.x.None? && p.y.None? && p.width.None? && p.height.None?
    ensures p.rotation == Some(if clockwise then it.rotation + RotationStep else it.rotation - RotationStep)
  {
    Patch(None, None, None, None, Some(if clockwise then it.rotation + RotationStep else it.rotation - RotationStep))
  }

  /** Each manipulation writes only its own fields of the item. */
  lemma ManipulationsWriteOwnFields<P>(it: CanvasItem<P>, rawX: int, rawY: int, rawW: int, rawH: int,
                                       hasRoom: bool, clockwise: bool)
    ensures var d := Merge(it, DragStopPatch(it, rawX, rawY, hasRoom));
      d == it.(x := d.x, y := d.y)
    ensures var s := Merge(it, ResizeStopPatch(rawW, rawH));
      s == it.(width := s.width, height := s.height)
    ensures Merge(it, RotatePatch(it, clockwise)).rotation - it.rotation in {RotationStep, -RotationStep}
    ensures var t := Merge(it, RotatePatch(it, clockwise));
      t == it.(rotation := t.rotation)
  {
  }

  /** Rotating clockwise n times adds 90n degrees: after four turns the angle is 360 more, not the same. */
  function RotatedTimes<P>(it: CanvasItem<P>, n: nat): CanvasItem<P> {
    if n == 0 then it else Merge(RotatedTimes(it, n - 1), RotatePatch(RotatedTimes(it, n - 1), true))
  }

  lemma {:induction false} RotationAccumulates<P>(it: CanvasItem<P>, n: nat)
    ensures RotatedTimes(it, n) == it.(rotation := it.rotation + RotationStep * n)
  {
    if n > 0 {
      RotationAccumulates(it, n - 1);
    }
  }

  /** The first item with the given id, if any: the item a handler's closure refers to. */
  function Lookup<P>(items: seq<CanvasItem<P>>, uid: string): (r: Option<CanvasItem<P>>)
    ensures r.None? <==> uid !in Ids(items)
    ensures r.Some? ==> r.value in items && r.value.uniqueId == uid
  {
    if items == [] then None
    else if items[0].uniqueId == uid then Some(items[0])
    else
      var r := Lookup(items[1..], uid);
      assert Ids(items)[1..] == Ids(items[1..]);
      r
  }
}
