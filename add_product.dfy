/** The admin "add product" page: the product schema its form is validated
    against, the form's defaults, and the record a valid submission writes. */
module AddProduct {
  import opened Wrappers

  /** The category enum of the schema. */
  const Categories: seq<string> := ["Smartphones", "Laptops", "Audio", "Wearables", "Cameras", "Drones"]

  /** The brand enum of the schema. */
  const Brands: seq<string> := ["Nova", "Electro", "Sonic", "Connect"]

  /** The form's values after number coercion. `category` and `brand` stay
      undefined until the user picks one; the image field is not validated. */
  datatype ProductForm = ProductForm(
    name: string,
    description: string,
    price: int,
    category: Option<string>,
    brand: Option<string>,
    stock: int,
    isFeatured: bool,
    newArrival: bool,
    rating: int)

  /** The fields the schema can reject. */
  datatype ProductField = Name | Description | Price | Category | Brand | Stock | Rating

  /** A defined value that is one of `values`. */
  predicate OneOf(v: Option<string>, values: seq<string>)
  {
    v.Some? && v.value in values
  }

  /** The constraint `productSchema` puts on one field. */
  predicate FieldAccepted(f: ProductForm, field: ProductField)
  {
    match field
    case Name => |f.name| >= 1
    case Description => |f.description| >= 1
    case Price => f.price >= 0
    case Category => OneOf(f.category, Categories)
    case Brand => OneOf(f.brand, Brands)
    case Stock => f.stock >= 0
    case Rating => 1 <= f.rating <= 5
  }

  /** The issue one field contributes: itself when it fails, nothing otherwise. */
  function Issue(f: ProductForm, field: ProductField): (r: seq<ProductField>)
  {
    if FieldAccepted(f, field) then [] else [field]
  }

  /** The fields `productSchema` rejects, in schema order. */
  function ProductIssues(f: ProductForm): (r: seq<ProductField>)
    ensures forall field :: field in r <==> !FieldAccepted(f, field)
  {
    Issue(f, Name) + Issue(f, Description) + Issue(f, Price) + Issue(f, Category)
    + Issue(f, Brand) + Issue(f, Stock) + Issue(f, Rating)
  }

  /** The schema accepts a form exactly when name and description are
      non-empty, the price and stock are not negative, the category and brand
      come from their enums and the rating lies in [1, 5]. */
  lemma ProductAccepted(f: ProductForm)
    ensures ProductIssues(f) == [] <==>
              && |f.name| >= 1 && |f.description| >= 1 && f.price >= 0
              && OneOf(f.category, Categories) && OneOf(f.brand, Brands)
              && f.stock >= 0 && 1 <= f.rating <= 5
  {
    var r := ProductIssues(f);
    if r != [] {
      assert r[0] in r;
      assert !FieldAccepted(f, r[0]);
    } else {
      forall field ensures FieldAccepted(f, field) {
        assert field !in r;
      }
      assert FieldAccepted(f, Name) && FieldAccepted(f, Description) && FieldAccepted(f, Price);
      assert FieldAccepted(f, Category) && FieldAccepted(f, Brand);
      assert FieldAccepted(f, Stock) && FieldAccepted(f, Rating);
    }
  }

  /** The form's `defaultValues`. */
  const DefaultProductForm: ProductForm :=
    ProductForm("", "", 0, None, None, 0, false, false, 4)

  /** The numeric defaults satisfy their constraints and both flags are off,
      yet the default form is rejected: name and description are empty and
      no category or brand is chosen. */
  lemma DefaultProductFormRejected()
    ensures var d := DefaultProductForm;
      d.price >= 0 && d.stock >= 0 && 1 <= d.rating <= 5 && !d.isFeatured && !d.newArrival
    ensures ProductIssues(DefaultProductForm) == [Name, Description, Category, Brand]
  {
    assert !OneOf(DefaultProductForm.category, Categories);
    assert !OneOf(DefaultProductForm.brand, Brands);
  }

  /** The object written to the `products` collection. */
  datatype NewProduct = NewProduct(
    name: string,
    description: string,
    price: int,
    category: string,
    brand: string,
    stock: int,
    isFeatured: bool,
    newArrival: bool,
    rating: int,
    imageUrl: string,
    imageIds: seq<string>)

  /** The validated form fields a record carries. */
  function FormOf(r: NewProduct): (f: ProductForm)
  {
    ProductForm(r.name, r.description, r.price, Some(r.category), Some(r.brand),
                r.stock, r.isFeatured, r.newArrival, r.rating)
  }

  /** `newProductData`: built only from validated values; the image preview
      (a data URL) becomes `imageUrl`, and `imageIds` is always empty. */
  function NewProductData(f: ProductForm, preview: Option<string>): (r: NewProduct)
    requires ProductIssues(f) == []
    ensures FormOf(r) == f
    ensures r.imageUrl == (if preview.Some? then preview.value else "")
    ensures r.imageIds == []
  {
    NewProduct(f.name, f.description, f.price, f.category.value, f.brand.value,
               f.stock, f.isFeatured, f.newArrival, f.rating,
               if preview.Some? then preview.value else "", [])
  }

  /** What a submission of the form leads to. */
  datatype SubmitOutcome =
    | Invalid(issues: seq<ProductField>)  // the schema rejected the form; `onSubmit` is not called
    | StoreUnavailable                    // no Firestore instance: an error toast, nothing written
    | Written(record: NewProduct)         // the record handed to the store

  /** `form.handleSubmit(onSubmit)`. */
  function Submit(f: ProductForm, preview: Option<string>, storeAvailable: bool): (o: SubmitOutcome)
    ensures o.Invalid? <==> ProductIssues(f) != []
    ensures o.Invalid? ==> o.issues == ProductIssues(f)
    ensures o.StoreUnavailable? <==> ProductIssues(f) == [] && !storeAvailable
    ensures o.Written? ==> storeAvailable && ProductIssues(f) == [] && o.record == NewProductData(f, preview)
  {
    if ProductIssues(f) != [] then Invalid(ProductIssues(f))
    else if !storeAvailable then StoreUnavailable
    else Written(NewProductData(f, preview))
  }

  /** Whatever is written satisfies the schema again, with a category and a
      brand from the enums; without a store nothing is written. */
  lemma WrittenRecordValid(f: ProductForm, preview: Option<string>, storeAvailable: bool)
    ensures !storeAvailable ==> !Submit(f, preview, storeAvailable).Written?
    ensures Submit(f, preview, storeAvailable).Written? ==>
              var r := Submit(f, preview, storeAvailable).record;
              && ProductIssues(FormOf(r)) == []
              && r.category in Categories && r.brand in Brands
              && r.price >= 0 && r.stock >= 0 && 1 <= r.rating <= 5
  {
  }
}
