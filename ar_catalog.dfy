/**
 * The 3D catalog list (frontend/src/ar/ARCatalog.jsx): which fetched items
 * are offered for AR viewing, and which picture stands for each.
 */
module ARCatalog {
  import opened Wrappers
  import opened Seqs
  import Js
  import FurnitureSchema

  /** A fetched catalog item, as the list reads it. */
  datatype ARItem = ARItem(
    id: string,
    name: string,
    category: string,
    imageURL: Option<string>,
    modelURL: Option<string>,
    modelThumbnailURL: Option<string>)

  /**
   * `item.modelURL && item.modelURL.trim() !== ''`: the URL is present and
   * holds a character other than whitespace.
   */
  predicate HasModel(item: ARItem)
    ensures HasModel(item) <==>
              item.modelURL.Some? && exists k :: 0 <= k < |item.modelURL.value| && !Js.IsSpace(item.modelURL.value[k])
  {
    Truthy(item.modelURL) && (Js.TrimNonEmpty(item.modelURL.value); Js.Trim(item.modelURL.value) != "")
  }

  /** The list kept from the fetched catalog. */
  function ARItems(fetched: seq<ARItem>): (r: seq<ARItem>)
    ensures forall it :: it in r ==> it in fetched && HasModel(it)
    ensures forall it :: it in fetched && HasModel(it) ==> it in r
  {
    Filter(fetched, HasModel)
  }

  /**
   * Kept are exactly the items whose `modelURL` is present and holds a
   * non-whitespace character, in the fetched order.
   */
  lemma ARItemsSpec(fetched: seq<ARItem>)
    ensures IsSubsequence(ARItems(fetched), fetched)
    ensures forall it :: it in ARItems(fetched) <==>
              (it in fetched && it.modelURL.Some?
               && exists k :: 0 <= k < |it.modelURL.value| && !Js.IsSpace(it.modelURL.value[k]))
  {
    FilterIsSubsequence(fetched, HasModel);
  }

  datatype Thumbnail = Picture(url: string) | Placeholder

  /** `item.modelThumbnailURL || item.imageURL`, or the box icon when both are falsy. */
  function ThumbnailOf(item: ARItem): (t: Thumbnail)
    ensures t.Placeholder? <==> !Truthy(item.modelThumbnailURL) && !Truthy(item.imageURL)
    ensures t.Picture? ==> t.url != "" && (Some(t.url) == item.modelThumbnailURL || Some(t.url) == item.imageURL)
    ensures Truthy(item.modelThumbnailURL) ==> t == Picture(item.modelThumbnailURL.value)
  {
    if Truthy(item.modelThumbnailURL) then Picture(item.modelThumbnailURL.value)
    else if Truthy(item.imageURL) then Picture(item.imageURL.value)
    else Placeholder
  }

  /** A stored catalog item as the list receives it; the schema has no thumbnail path. */
  function FromCatalog(e: FurnitureSchema.CatalogEntry): ARItem {
    ARItem(e.id, e.item.name, e.item.category, e.item.imageURL, Some(e.item.modelURL), None)
  }

  /** For stored catalog items the thumbnail is always the 2D image or the icon. */
  lemma CatalogThumbnail(e: FurnitureSchema.CatalogEntry)
    ensures ThumbnailOf(FromCatalog(e)) == (if Truthy(e.item.imageURL) then Picture(e.item.imageURL.value) else Placeholder)
  {
  }

  /** The component state. */
  class CatalogView {
    var furniture: seq<ARItem>
    var loading: bool

    constructor()
      ensures furniture == [] && loading
    {
      furniture := [];
      loading := true;
    }

    /** The fetch effect: keep the items with a model; a failed request leaves the list as it was. */
    method Load(res: Fetch<seq<ARItem>>)
      modifies this
      ensures furniture == (if res.Loaded? then ARItems(res.body) else old(furniture))
      ensures !loading
    {
      if res.Loaded? {
        furniture := ARItems(res.body);
      }
      loading := false;
    }
  }
}
