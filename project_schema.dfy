/**
 * The saved layout document (backend/models/Project.js): required fields,
 * the shape of one placed item with its defaults, and the timestamps.
 */
module ProjectSchema {
  import opened Wrappers

  /**
   * One entry of `itemsUsed` as it arrives in a request. Only the paths the
   * schema declares are represented: Mongoose's strict mode drops every
   * other property of the incoming object. `id` is the `_id` path that
   * Mongoose adds to every element of an array of objects.
   */
  datatype ItemInput = ItemInput(
    id: Option<string>,
    itemId: Option<string>,
    imageURL: Option<string>,
    x: Option<int>,
    y: Option<int>,
    width: Option<int>,
    height: Option<int>,
    rotation: Option<int>)

  /**
   * A stored placed item: its subdocument `_id`, position and rotation
   * always present, size optional.
   */
  datatype PlacedItem = PlacedItem(
    id: string,
    itemId: Option<string>,
    imageURL: Option<string>,
    x: int,
    y: int,
    width: Option<int>,
    height: Option<int>,
    rotation: int)

  /** The body fields the project constructor reads. */
  datatype ProjectInput = ProjectInput(
    title: Option<string>,
    roomImageURL: Option<string>,
    itemsUsed: Option<seq<ItemInput>>)

  /** A stored project, with the `timestamps` fields. */
  datatype Project = Project(
    userId: string,
    title: string,
    roomImageURL: string,
    itemsUsed: seq<PlacedItem>,
    createdAt: int,
    updatedAt: int)

  /**
   * Casting one item: a given `_id` is kept and a missing one becomes
   * `freshId`; x, y and rotation default to 0; the rest is kept or left
   * absent.
   */
  function CastItem(i: ItemInput, freshId: string): (p: PlacedItem)
    ensures i.id.Some? ==> p.id == i.id.value
    ensures i.id.None? ==> p.id == freshId
    ensures p.x == i.x.GetOr(0) && p.y == i.y.GetOr(0) && p.rotation == i.rotation.GetOr(0)
    ensures p.width == i.width && p.height == i.height
    ensures p.itemId == i.itemId && p.imageURL == i.imageURL
  {
    PlacedItem(i.id.GetOr(freshId), i.itemId, i.imageURL, i.x.GetOr(0), i.y.GetOr(0), i.width, i.height,
               i.rotation.GetOr(0))
  }

  /** Casting the array: the k-th element is cast with `newIds(k)` as its fresh `_id`. */
  function CastItems(items: seq<ItemInput>, newIds: nat -> string): (r: seq<PlacedItem>)
    ensures |r| == |items|
    ensures forall k :: 0 <= k < |items| ==> r[k] == CastItem(items[k], newIds(k))
  {
    seq(|items|, k requires 0 <= k < |items| => CastItem(items[k], newIds(k)))
  }

  /** A stored item whose fields were given explicitly casts back to itself. */
  lemma CastItemExplicit(p: PlacedItem, freshId: string)
    ensures CastItem(ItemInput(Some(p.id), p.itemId, p.imageURL, Some(p.x), Some(p.y), p.width, p.height,
                               Some(p.rotation)), freshId) == p
  {
  }

  /** `userId`, `title` and `roomImageURL` are required on every stored project. */
  predicate ValidProject(p: Project) {
    p.userId != "" && p.title != "" && p.roomImageURL != ""
  }

  /** The required paths that are missing or empty. */
  function MissingPaths(userId: string, input: ProjectInput): (missing: set<string>)
    ensures "userId" in missing <==> userId == ""
    ensures "title" in missing <==> !Truthy(input.title)
    ensures "roomImageURL" in missing <==> !Truthy(input.roomImageURL)
    ensures missing <= {"userId", "title", "roomImageURL"}
  {
    (if userId != "" then {} else {"userId"})
    + (if Truthy(input.title) then {} else {"title"})
    + (if Truthy(input.roomImageURL) then {} else {"roomImageURL"})
  }

  /**
   * Building and validating a new project at time `now`: it fails with the
   * missing required paths; otherwise both timestamps are `now`, an absent
   * `itemsUsed` becomes the empty array, and each item is cast, `newIds`
   * supplying the generated `_id`s.
   */
  function CreateProject(userId: string, input: ProjectInput, now: int, newIds: nat -> string)
    : (r: Result<Project, set<string>>)
    ensures r.Ok? <==> MissingPaths(userId, input) == {}
    ensures r.Err? ==> r.error == MissingPaths(userId, input) && r.error != {}
    ensures r.Ok? ==> ValidProject(r.value)
    ensures r.Ok? ==> r.value.userId == userId && r.value.title == input.title.value
                      && r.value.roomImageURL == input.roomImageURL.value
    ensures r.Ok? ==> r.value.createdAt == now && r.value.updatedAt == now
    ensures r.Ok? ==> r.value.itemsUsed == CastItems(input.itemsUsed.GetOr([]), newIds)
  {
    var missing := MissingPaths(userId, input);
    if missing != {} then Err(missing)
    else Ok(Project(userId, input.title.value, input.roomImageURL.value,
                    CastItems(input.itemsUsed.GetOr([]), newIds), now, now))
  }
}
