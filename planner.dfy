/**
 * The layout editor's session state (frontend/src/pages/Planner.jsx): the
 * placed items, the selection, the title and the room image, updated by the
 * page's handlers. Request results and freshly generated ids are parameters.
 */
module Planner {
  import opened Wrappers
  import opened Seqs
  import opened Layout

  class Session<P> {
    /** The `:id` route parameter: set when an existing design is edited. */
    const routeId: Option<string>
    /** The catalog shown in the sidebar. */
    var furniture: seq<P>
    var items: seq<CanvasItem<P>>
    var selectedItemId: Option<string>
    var title: string
    var roomImage: Option<string>
    var loading: bool

    /** Ids are drawn fresh, so no two items share one. */
    ghost predicate Valid()
      reads this
    {
      Distinct(Ids(items))
    }

    constructor(id: Option<string>)
      ensures Valid()
      ensures routeId == id && furniture == [] && items == [] && selectedItemId == None
      ensures title == DefaultTitle && roomImage == None && loading
    {
      routeId := id;
      furniture := [];
      items := [];
      selectedItemId := None;
      title := DefaultTitle;
      roomImage := None;
      loading := true;
    }

    /**
     * `init`: store the catalog, then, when the route has an id, look the
     * project up in the user's list and load it. A failed request is caught;
     * `loading` is false afterwards in every case. `ids` are the fresh ids
     * for the loaded items.
     */
    method Init(catalog: Fetch<seq<P>>, projects: Fetch<seq<ProjectDoc<P>>>, ids: seq<string>)
      requires Valid() && Distinct(ids)
      requires LoadTarget(routeId, catalog, projects).Some? ==>
                 |ids| == |LoadTarget(routeId, catalog, projects).value.itemsUsed|
      modifies this
      ensures Valid() && !loading
      ensures furniture == (if catalog.Loaded? then catalog.body else old(furniture))
      ensures selectedItemId == old(selectedItemId)
      ensures LoadTarget(routeId, catalog, projects).None? ==>
                items == old(items) && title == old(title) && roomImage == old(roomImage)
      ensures LoadTarget(routeId, catalog, projects).Some? ==>
                var p := LoadTarget(routeId, catalog, projects).value;
                title == p.title && roomImage == Some(p.roomImageURL) && items == Hydrate(p.itemsUsed, ids)
    {
      if catalog.Loaded? {
        furniture := catalog.body;
        if Truthy(routeId) && projects.Loaded? {
          var project := FindProject(projects.body, routeId.value);
          if project.Some? {
            title := project.value.title;
            roomImage := Some(project.value.roomImageURL);
            items := Hydrate(project.value.itemsUsed, ids);
          }
        }
      }
      loading := false;
    }

    /** The title input. */
    method SetTitle(value: string)
      modifies this`title
      ensures title == value
    {
      title := value;
    }

    /** `handleImageUpload`: a chosen file (as a data URL) becomes the room image; no file, no change. */
    method UploadRoomImage(file: Option<string>)
      modifies this`roomImage
      ensures roomImage == (if file.Some? then file else old(roomImage))
    {
      if file.Some? {
        roomImage := file;
      }
    }

    /** `addItemToCanvas`: the catalog item with a fresh id and the default placement, appended. */
    method AddItemToCanvas(item: P, newId: string)
      requires Valid() && newId !in Ids(items)
      modifies this`items
      ensures Valid()
      ensures |items| == |old(items)| + 1 && items[..|old(items)|] == old(items)
      ensures items[|old(items)|] == CanvasItem(item, newId, AddedX, AddedY, AddedSize, AddedSize, 0)
    {
      items := items + [NewItem(item, newId)];
      assert Ids(items) == Ids(old(items)) + [newId];
    }

    /** `updateItem`: merge the patch into the item with that id; others, order and length unchanged. */
    method UpdateItem(uid: string, p: Patch)
      requires Valid()
      modifies this`items
      ensures Valid()
      ensures items == UpdateAll(old(items), uid, p)
      ensures uid !in Ids(old(items)) ==> items == old(items)
    {
      if uid !in Ids(items) {
        UpdateUnknownIdIsIdentity(items, uid, p);
      }
      items := UpdateAll(items, uid, p);
    }

    /** `removeItem`: drop the item with that id and clear the selection. */
    method RemoveItem(uid: string)
      requires Valid()
      modifies this`items, this`selectedItemId
      ensures Valid()
      ensures items == Without(old(items), uid)
      ensures uid !in Ids(items) && IsSubsequence(items, old(items))
      ensures selectedItemId == None
    {
      WithoutProperties(items, uid);
      items := Without(items, uid);
      selectedItemId := None;
    }

    /** Clicking an item selects it. */
    method Select(uid: string)
      modifies this`selectedItemId
      ensures selectedItemId == Some(uid)
    {
      selectedItemId := Some(uid);
    }

    /** `saveProject`: the request it sends, if any. The editor state is not changed. */
    method Save() returns (req: Option<SaveRequest<P>>)
      ensures req.None? <==> !Truthy(roomImage)
      ensures req.Some? ==> (req.value.Put? <==> Truthy(routeId))
      ensures req.Some? && req.value.Put? ==> req.value.id == routeId.value
      ensures req.Some? ==> req.value.payload.title == title && req.value.payload.roomImageURL == roomImage.value
      ensures req.Some? ==> |req.value.payload.itemsUsed| == |items|
      ensures req.Some? ==> forall k :: 0 <= k < |items| ==> req.value.payload.itemsUsed[k] == Strip(items[k])
    {
      req := SaveRequestFor(routeId, title, roomImage, items);
    }

    /** Drag stop: the item's new position, kept inside the canvas, and nothing else. */
    method DragStop(uid: string, rawX: int, rawY: int)
      requires Valid()
      modifies this`items
      ensures Valid()
      ensures Lookup(old(items), uid).None? ==> items == old(items)
      ensures Lookup(old(items), uid).Some? ==>
                items == UpdateAll(old(items), uid,
                                   DragStopPatch(Lookup(old(items), uid).value, rawX, rawY, Truthy(roomImage)))
    {
      var it := Lookup(items, uid);
      if it.Some? {
        UpdateItem(uid, DragStopPatch(it.value, rawX, rawY, Truthy(roomImage)));
      }
    }

    /** Resize stop: the item's new size, within [50, 400], and nothing else. */
    method ResizeStop(uid: string, rawW: int, rawH: int)
      requires Valid()
      modifies this`items
      ensures Valid()
      ensures items == UpdateAll(old(items), uid, ResizeStopPatch(rawW, rawH))
    {
      UpdateItem(uid, ResizeStopPatch(rawW, rawH));
    }

    /** A rotate button: the item's rotation minus or plus 90, and nothing else. */
    method Rotate(uid: string, clockwise: bool)
      requires Valid()
      modifies this`items
      ensures Valid()
      ensures Lookup(old(items), uid).None? ==> items == old(items)
      ensures Lookup(old(items), uid).Some? ==>
                items == UpdateAll(old(items), uid, RotatePatch(Lookup(old(items), uid).value, clockwise))
    {
      var it := Lookup(items, uid);
      if it.Some? {
        UpdateItem(uid, RotatePatch(it.value, clockwise));
      }
    }
  }
}
