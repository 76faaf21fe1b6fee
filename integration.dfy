/**
 * The Planner's save requests as the project endpoints receive them: how a
 * canvas item becomes a stored placed item, and what an update of an
 * existing design does with the room image it carries.
 */
module Integration {
  import opened Wrappers
  import Layout
  import FurnitureSchema
  import ProjectSchema
  import Projects
  import AdminPanel

  /**
   * One saved canvas item as the server reads it. The item spreads the
   * catalog entry, so the entry's `_id` arrives as the subdocument's own
   * `_id` and its `imageURL` as the item's image; the schema's `itemId` is
   * never sent, and strict mode drops the other catalog fields (name,
   * category, modelURL, dimensions).
   */
  function ItemBody(d: Layout.DocItem<FurnitureSchema.CatalogEntry>): (i: ProjectSchema.ItemInput)
    ensures i.id == Some(d.fields.id)
    ensures i.itemId.None? && i.imageURL == d.fields.item.imageURL
    ensures i.x == Some(d.x) && i.y == Some(d.y) && i.rotation == Some(d.rotation)
    ensures i.width == d.width && i.height == d.height
  {
    ProjectSchema.ItemInput(Some(d.fields.id), None, d.fields.item.imageURL, Some(d.x), Some(d.y), d.width, d.height,
                            Some(d.rotation))
  }

  /** The body of a save request. */
  function RequestBody(payload: Layout.SavePayload<FurnitureSchema.CatalogEntry>): (b: ProjectSchema.ProjectInput)
    ensures b.title == Some(payload.title) && b.roomImageURL == Some(payload.roomImageURL)
    ensures b.itemsUsed.Some? && |b.itemsUsed.value| == |payload.itemsUsed|
    ensures forall k :: 0 <= k < |payload.itemsUsed| ==> b.itemsUsed.value[k] == ItemBody(payload.itemsUsed[k])
  {
    ProjectSchema.ProjectInput(Some(payload.title), Some(payload.roomImageURL),
      Some(seq(|payload.itemsUsed|, k requires 0 <= k < |payload.itemsUsed| => ItemBody(payload.itemsUsed[k]))))
  }

  /**
   * Saving an existing design sends its room image, but the stored project
   * keeps the room image it had: a new background chosen in the editor is
   * never stored for an existing design.
   */
  lemma PutKeepsStoredRoomImage(routeId: Option<string>, title: string, roomImage: Option<string>,
                                items: seq<Layout.CanvasItem<FurnitureSchema.CatalogEntry>>,
                                stored: ProjectSchema.Project, now: int, newIds: nat -> string)
    requires Truthy(routeId) && Truthy(roomImage)
    ensures Layout.SaveRequestFor(routeId, title, roomImage, items).Some?
    ensures Layout.SaveRequestFor(routeId, title, roomImage, items).value.Put?
    ensures Layout.SaveRequestFor(routeId, title, roomImage, items).value.payload.roomImageURL == roomImage.value
    ensures Projects.Updated(stored, RequestBody(Layout.SaveRequestFor(routeId, title, roomImage, items).value.payload), now, newIds).roomImageURL
            == stored.roomImageURL
  {
  }

  /**
   * The geometry of every canvas item reaches the stored project unchanged.
   * The link to the catalog item survives only as the subdocument's `_id`,
   * which is the catalog entry's id (no fresh one is generated); the
   * declared `itemId` reference stays absent.
   */
  lemma SavedGeometry(it: Layout.CanvasItem<FurnitureSchema.CatalogEntry>, freshId: string)
    ensures ProjectSchema.CastItem(ItemBody(Layout.Strip(it)), freshId).id == it.fields.id
    ensures ProjectSchema.CastItem(ItemBody(Layout.Strip(it)), freshId).itemId.None?
    ensures ProjectSchema.CastItem(ItemBody(Layout.Strip(it)), freshId).imageURL == it.fields.item.imageURL
    ensures ProjectSchema.CastItem(ItemBody(Layout.Strip(it)), freshId) ==
            ProjectSchema.PlacedItem(it.fields.id, None, it.fields.item.imageURL, it.x, it.y, Some(it.width),
                                     Some(it.height), it.rotation)
  {
  }

  /** A stored placed item as the Planner loads it back: the stored item itself is all it has. */
  function LoadedDoc(pi: ProjectSchema.PlacedItem): (d: Layout.DocItem<ProjectSchema.PlacedItem>)
    ensures d.fields == pi && d.x == pi.x && d.y == pi.y && d.rotation == pi.rotation
    ensures d.width == pi.width && d.height == pi.height
  {
    Layout.DocItem(pi, pi.x, pi.y, pi.width, pi.height, pi.rotation)
  }

  /**
   * Saving a canvas item and loading it back restores its geometry when no
   * size is 0, and keeps the catalog entry's id and image; the other catalog
   * fields (name, category, modelURL, dimensions) are not restored, since
   * the reloaded item carries only what the placed-item schema stored.
   */
  lemma ReloadedItem(it: Layout.CanvasItem<FurnitureSchema.CatalogEntry>, freshId: string, uid: string)
    requires it.width != 0 && it.height != 0
    ensures var r := Layout.HydrateItem(LoadedDoc(ProjectSchema.CastItem(ItemBody(Layout.Strip(it)), freshId)), uid);
            r.x == it.x && r.y == it.y && r.width == it.width && r.height == it.height && r.rotation == it.rotation
            && r.uniqueId == uid
            && r.fields.id == it.fields.id && r.fields.imageURL == it.fields.item.imageURL && r.fields.itemId.None?
  {
    SavedGeometry(it, freshId);
  }

  /**
   * A created design stores, in order, one placed item per canvas item with
   * that item's geometry and, as its `_id`, the catalog entry's id.
   */
  lemma {:induction false} CreatedItems(payload: Layout.SavePayload<FurnitureSchema.CatalogEntry>, userId: string, now: int,
                                        newIds: nat -> string)
    requires userId != "" && payload.title != "" && payload.roomImageURL != ""
    ensures ProjectSchema.CreateProject(userId, RequestBody(payload), now, newIds).Ok?
    ensures var p := ProjectSchema.CreateProject(userId, RequestBody(payload), now, newIds).value;
            |p.itemsUsed| == |payload.itemsUsed|
            && forall k :: 0 <= k < |payload.itemsUsed| ==>
                 p.itemsUsed[k].x == payload.itemsUsed[k].x && p.itemsUsed[k].y == payload.itemsUsed[k].y
                 && p.itemsUsed[k].width == payload.itemsUsed[k].width
                 && p.itemsUsed[k].height == payload.itemsUsed[k].height
                 && p.itemsUsed[k].rotation == payload.itemsUsed[k].rotation
                 && p.itemsUsed[k].itemId.None?
                 && p.itemsUsed[k].id == payload.itemsUsed[k].fields.id
  {
    var b := RequestBody(payload);
    assert ProjectSchema.MissingPaths(userId, b) == {};
    var p := ProjectSchema.CreateProject(userId, b, now, newIds).value;
    forall k | 0 <= k < |payload.itemsUsed|
      ensures p.itemsUsed[k] == ProjectSchema.CastItem(ItemBody(payload.itemsUsed[k]), newIds(k))
    {
      assert p.itemsUsed == ProjectSchema.CastItems(b.itemsUsed.value, newIds);
    }
  }

  /** The admin form as the catalog endpoint receives it: every field present, "" included. */
  function FormInput(f: AdminPanel.FurnitureForm): (i: FurnitureSchema.FurnitureInput)
    ensures i.name == Some(f.name) && i.category == Some(f.category)
    ensures i.imageURL == Some(f.imageURL) && i.modelURL == Some(f.modelURL)
  {
    FurnitureSchema.FurnitureInput(Some(f.name), Some(f.imageURL), Some(f.modelURL),
      FurnitureSchema.Dimensions(Some(f.dimensions.width), Some(f.dimensions.height), Some(f.dimensions.depth)),
      Some(f.category))
  }

  /**
   * A form the panel sends is stored exactly when its name and category are
   * non-empty; the upload that was not made is stored as "", so a stored
   * item has a non-empty image or model; the dimensions are stored as
   * entered.
   */
  lemma AdminFormStored(f: AdminPanel.FurnitureForm)
    requires AdminPanel.CanAdd(f)
    ensures FurnitureSchema.CreateFurniture(FormInput(f)).Ok? <==> f.name != "" && f.category != ""
    ensures FurnitureSchema.CreateFurniture(FormInput(f)).Ok? ==>
              var item := FurnitureSchema.CreateFurniture(FormInput(f)).value;
              item.imageURL == Some(f.imageURL) && item.modelURL == f.modelURL
              && (item.imageURL != Some("") || item.modelURL != "")
              && item.dimensions.width == Some(f.dimensions.width) && item.dimensions.height == Some(f.dimensions.height)
  {
  }

  /** The form the panel starts with, and returns to after an add, would be refused by the schema. */
  lemma InitialFormNotStorable()
    ensures !AdminPanel.CanAdd(AdminPanel.InitialForm)
    ensures FurnitureSchema.CreateFurniture(FormInput(AdminPanel.InitialForm)).Err?
  {
  }
}
