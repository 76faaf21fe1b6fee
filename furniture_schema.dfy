/**
 * The catalog item document (backend/models/Furniture.js): which fields are
 * required, which are optional, and the default of `modelURL`.
 */
module FurnitureSchema {
  import opened Wrappers

  /** The optional numeric `dimensions` sub-object. */
  datatype Dimensions = Dimensions(width: Option<int>, height: Option<int>, depth: Option<int>)

  /** A document as handed to the model constructor: any field may be missing. */
  datatype FurnitureInput = FurnitureInput(
    name: Option<string>,
    imageURL: Option<string>,
    modelURL: Option<string>,
    dimensions: Dimensions,
    category: Option<string>)

  /** A catalog item that passed validation, with its defaults filled in. */
  datatype Furniture = Furniture(
    name: string,
    imageURL: Option<string>,
    modelURL: string,
    dimensions: Dimensions,
    category: string)

  /** A stored catalog item together with its document id (`_id`), as the catalog endpoint lists it. */
  datatype CatalogEntry = CatalogEntry(id: string, item: Furniture)

  /**
   * Mongoose's `required` check on a String path: the value must be present
   * and must not be the empty string.
   */
  predicate RequiredString(v: Option<string>) {
    Truthy(v)
  }

  /** The paths whose `required` check fails. */
  function MissingPaths(input: FurnitureInput): (missing: set<string>)
    ensures "name" in missing <==> !RequiredString(input.name)
    ensures "category" in missing <==> !RequiredString(input.category)
    ensures missing <= {"name", "category"}
  {
    (if RequiredString(input.name) then {} else {"name"})
    + (if RequiredString(input.category) then {} else {"category"})
  }

  /** A stored catalog item satisfies the schema's required fields. */
  predicate ValidFurniture(f: Furniture) {
    f.name != "" && f.category != ""
  }

  /**
   * Building a document: validation fails with the missing required paths,
   * otherwise the absent `modelURL` becomes "" and every other field is
   * kept as given (an absent `imageURL` or dimension stays absent).
   */
  function CreateFurniture(input: FurnitureInput): (r: Result<Furniture, set<string>>)
    ensures r.Ok? <==> RequiredString(input.name) && RequiredString(input.category)
    ensures r.Err? ==> r.error != {} && r.error == MissingPaths(input)
    ensures r.Ok? ==> ValidFurniture(r.value)
    ensures r.Ok? ==> r.value.name == input.name.value && r.value.category == input.category.value
    ensures r.Ok? ==> r.value.imageURL == input.imageURL && r.value.dimensions == input.dimensions
    ensures r.Ok? ==> r.value.modelURL == (if input.modelURL.Some? then input.modelURL.value else "")
  {
    var missing := MissingPaths(input);
    if missing != {} then Err(missing)
    else Ok(Furniture(input.name.value, input.imageURL, input.modelURL.GetOr(""), input.dimensions, input.category.value))
  }

  /** The input that spells out every field of a stored item. */
  function AsInput(f: Furniture): FurnitureInput {
    FurnitureInput(Some(f.name), f.imageURL, Some(f.modelURL), f.dimensions, Some(f.category))
  }

  /** Every item that satisfies the schema is rebuilt exactly from its own fields. */
  lemma CreateFurnitureRoundTrip(f: Furniture)
    requires ValidFurniture(f)
    ensures CreateFurniture(AsInput(f)) == Ok(f)
  {
  }
}
