/**
 * The product catalog (backend/models/Product.js). Prices are integer cents.
 * A product document is built from a draft whose fields may be missing; saving
 * it enforces the schema's `required` and `unique` constraints.
 */
module Catalog {
  import opened Common

  type ProductId = string

  /** A stored product: every field is present. */
  datatype Product = Product(name: string, price: int, imageUrl: string)

  /** A product as submitted, before validation. */
  datatype ProductDraft = ProductDraft(name: Option<string>, price: Option<int>, imageUrl: Option<string>)

  datatype ProductField = NameField | PriceField | ImageUrlField

  datatype ProductError =
    | MissingFields(fields: set<ProductField>)
    | DuplicateName(name: string)
    | DuplicateId(id: ProductId)

  type ProductCatalog = map<ProductId, Product>

  /** Mongoose's `required` on a String rejects an absent value and the empty string. */
  predicate PresentString(s: Option<string>) {
    s.Some? && s.value != ""
  }

  /** Every stored product satisfies the schema's `required` constraints. */
  predicate ValidProduct(p: Product) {
    p.name != "" && p.imageUrl != ""
  }

  /** No two catalog entries share a name (the unique index on `name`). */
  predicate UniqueNames(catalog: ProductCatalog) {
    forall a, b :: a in catalog && b in catalog && a != b ==> catalog[a].name != catalog[b].name
  }

  predicate ValidCatalog(catalog: ProductCatalog) {
    && (forall id :: id in catalog ==> ValidProduct(catalog[id]))
    && UniqueNames(catalog)
  }

  /** The fields of a draft that violate `required`. */
  function MissingProductFields(d: ProductDraft): (fs: set<ProductField>)
    ensures NameField in fs <==> !PresentString(d.name)
    ensures PriceField in fs <==> d.price.None?
    ensures ImageUrlField in fs <==> !PresentString(d.imageUrl)
  {
    (if PresentString(d.name) then {} else {NameField})
    + (if d.price.Some? then {} else {PriceField})
    + (if PresentString(d.imageUrl) then {} else {ImageUrlField})
  }

  /** Validation of a product draft: a product exists only when name, price and imageUrl are all given. */
  function ValidateProduct(d: ProductDraft): (r: Result<Product, ProductError>)
    ensures r.Ok? <==> PresentString(d.name) && d.price.Some? && PresentString(d.imageUrl)
    ensures r.Ok? ==> ValidProduct(r.value)
    ensures r.Ok? ==> r.value == Product(d.name.value, d.price.value, d.imageUrl.value)
    ensures r.Err? ==> r.error.MissingFields? && r.error.fields != {}
  {
    var missing := MissingProductFields(d);
    if missing == {} then Ok(Product(d.name.value, d.price.value, d.imageUrl.value))
    else Err(MissingFields(missing))
  }

  /** Saving a new product: validation first, then the unique indexes on `_id` and `name`. */
  function InsertProduct(catalog: ProductCatalog, id: ProductId, d: ProductDraft): (r: Result<ProductCatalog, ProductError>)
    ensures r.Ok? ==> ValidateProduct(d).Ok? && id !in catalog
    ensures r.Ok? ==> r.value == catalog[id := ValidateProduct(d).value]
    ensures r.Ok? ==> forall other :: other in catalog ==> catalog[other].name != d.name.value
    ensures ValidateProduct(d).Ok? && id !in catalog && (forall other :: other in catalog ==> catalog[other].name != d.name.value)
            ==> r.Ok?
  {
    match ValidateProduct(d)
    case Err(e) => Err(e)
    case Ok(p) =>
      if id in catalog then Err(DuplicateId(id))
      else if exists other :: other in catalog && catalog[other].name == p.name then Err(DuplicateName(p.name))
      else Ok(catalog[id := p])
  }

  /** Inserting through the schema keeps the catalog valid: required fields present, names unique. */
  lemma InsertPreservesValidCatalog(catalog: ProductCatalog, id: ProductId, d: ProductDraft)
    requires ValidCatalog(catalog)
    requires InsertProduct(catalog, id, d).Ok?
    ensures ValidCatalog(InsertProduct(catalog, id, d).value)
  {
    var c' := InsertProduct(catalog, id, d).value;
    var p := ValidateProduct(d).value;
    forall a, b | a in c' && b in c' && a != b
      ensures c'[a].name != c'[b].name
    {
      if a == id {
        assert b in catalog;
      } else if b == id {
        assert a in catalog;
      } else {
        assert a in catalog && b in catalog;
      }
    }
  }
}
