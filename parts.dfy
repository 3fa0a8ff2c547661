/** The Part record of the catalogue and the two request bodies that
    create and update it. The Mongoose schema (models/Part) is not part of
    this model: the fields are the ones the controller reads and writes. */
module Parts {
  import opened Base

  /** A catalogue part. `price` is in integer cents; `createdAt` is the
      creation time as an abstract clock value. */
  datatype Part = Part(
    id: Id,
    user: Id,
    name: string,
    image: string,
    brand: string,
    category: string,
    description: string,
    modelNumber: string,
    price: int,
    countInStock: int,
    createdAt: int)

  function PartId(p: Part): Id { p.id }

  /** The body of a create request. */
  datatype PartFields = PartFields(
    name: string,
    image: string,
    brand: string,
    category: string,
    description: string,
    modelNumber: string,
    price: int,
    countInStock: int)

  /** The body of an update request: every field may be absent. */
  datatype PartPatch = PartPatch(
    name: Option<string>,
    image: Option<string>,
    brand: Option<string>,
    category: Option<string>,
    description: Option<string>,
    modelNumber: Option<string>,
    price: Option<int>,
    countInStock: Option<int>)

  const NoChanges := PartPatch(None, None, None, None, None, None, None, None)

  /** JavaScript truthiness of an optional string and an optional number:
      `undefined`, `""` and `0` are falsy. */
  predicate TextGiven(a: Option<string>) { a.Some? && a.value != "" }
  predicate NumberGiven(a: Option<int>) { a.Some? && a.value != 0 }

  /** `a || b` for an optional string and an optional number. */
  function OrText(a: Option<string>, b: string): string
  {
    if TextGiven(a) then a.value else b
  }

  function OrNumber(a: Option<int>, b: int): int
  {
    if NumberGiven(a) then a.value else b
  }

  /** The part built by `createPart`: the requester becomes its owner and
      every other field comes from the body. */
  function NewPart(id: Id, owner: Id, body: PartFields, now: int): (p: Part)
    ensures p.id == id && p.user == owner && p.createdAt == now
    ensures p.name == body.name && p.image == body.image && p.brand == body.brand
    ensures p.category == body.category && p.description == body.description
    ensures p.modelNumber == body.modelNumber
    ensures p.price == body.price && p.countInStock == body.countInStock
  {
    Part(id, owner, body.name, body.image, body.brand, body.category,
         body.description, body.modelNumber, body.price, body.countInStock, now)
  }

  /** The field merge of `updatePart`: each field takes the supplied value
      when it is truthy and keeps its old value otherwise; the id, the
      owner and the creation time never change. */
  function Merge(p: Part, u: PartPatch): (r: Part)
    ensures r.id == p.id && r.user == p.user && r.createdAt == p.createdAt
    ensures r.name == (if TextGiven(u.name) then u.name.value else p.name)
    ensures r.image == (if TextGiven(u.image) then u.image.value else p.image)
    ensures r.brand == (if TextGiven(u.brand) then u.brand.value else p.brand)
    ensures r.category == (if TextGiven(u.category) then u.category.value else p.category)
    ensures r.description == (if TextGiven(u.description) then u.description.value else p.description)
    ensures r.modelNumber == (if TextGiven(u.modelNumber) then u.modelNumber.value else p.modelNumber)
    ensures r.price == (if NumberGiven(u.price) then u.price.value else p.price)
    ensures r.countInStock == (if NumberGiven(u.countInStock) then u.countInStock.value else p.countInStock)
  {
    p.(name := OrText(u.name, p.name),
       image := OrText(u.image, p.image),
       brand := OrText(u.brand, p.brand),
       category := OrText(u.category, p.category),
       description := OrText(u.description, p.description),
       modelNumber := OrText(u.modelNumber, p.modelNumber),
       price := OrNumber(u.price, p.price),
       countInStock := OrNumber(u.countInStock, p.countInStock))
  }

  /** A price or stock of 0 and an empty string are ignored: sending them
      leaves the field as it was. */
  lemma FalsyValuesIgnored(p: Part, u: PartPatch)
    requires u.price == Some(0) && u.countInStock == Some(0)
    requires u.name == Some("") && u.description == Some("")
    ensures Merge(p, u).price == p.price && Merge(p, u).countInStock == p.countInStock
    ensures Merge(p, u).name == p.name && Merge(p, u).description == p.description
  {
  }

  /** A body with no fields leaves the part unchanged, and applying the
      same body twice has the effect of applying it once. */
  lemma MergeIdentityAndIdempotence(p: Part, u: PartPatch)
    ensures Merge(p, NoChanges) == p
    ensures Merge(Merge(p, u), u) == Merge(p, u)
  {
  }
}
