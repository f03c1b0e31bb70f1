/** The products a TechnicalTest client can subscribe to: immutable values
    validated when they are built. */
module Products {
  import opened Common
  import opened Text

  datatype ProductCategory = FPV | FIC

  /** `ProductCategory.ToString()`. */
  function CategoryName(c: ProductCategory): string {
    match c
    case FPV => "FPV"
    case FIC => "FIC"
  }

  const NameRequiredMessage: string := "El nombre del producto es obligatorio."
  const MinimumNotPositiveMessage: string := "El monto mínimo del producto debe ser mayor a cero."

  datatype Product = Product(id: int, name: string, minimumAmount: Money, category: ProductCategory)
  {
    /** What the constructor guarantees of every product. */
    predicate Valid() {
      !IsBlank(name) && minimumAmount > 0
    }
  }

  /** The validating constructor: a blank name is refused first, then a
      non-positive minimum; otherwise the fields are the arguments, the name
      kept exactly as given. */
  function NewProduct(id: int, name: string, minimumAmount: Money, category: ProductCategory): (r: Result<Product>)
    ensures r.Ok? <==> !IsBlank(name) && minimumAmount > 0
    ensures IsBlank(name) ==> r == Err(Domain(NameRequiredMessage))
    ensures !IsBlank(name) && minimumAmount <= 0 ==> r == Err(Domain(MinimumNotPositiveMessage))
    ensures r.Ok? ==> r.value == Product(id, name, minimumAmount, category) && r.value.Valid()
  {
    if IsBlank(name) then Err(Domain(NameRequiredMessage))
    else if minimumAmount <= 0 then Err(Domain(MinimumNotPositiveMessage))
    else Ok(Product(id, name, minimumAmount, category))
  }
}
