/** The funds a client can subscribe to: immutable values validated when
    they are built. */
module Funds {
  import opened Common
  import opened Text

  datatype FundCategory = FPV | FIC

  /** `FundCategory.ToString()`. */
  function CategoryName(c: FundCategory): string {
    match c
    case FPV => "FPV"
    case FIC => "FIC"
  }

  const NameRequiredMessage: string := "El nombre del fondo es obligatorio."
  const MinimumNotPositiveMessage: string := "El monto mínimo del fondo debe ser mayor a cero."

  datatype Fund = Fund(id: int, name: string, minimumAmount: Money, category: FundCategory)
  {
    /** What the constructor guarantees of every fund. */
    predicate Valid() {
      !IsBlank(name) && minimumAmount > 0
    }
  }

  /** The validating constructor: a blank name is refused first, then a
      non-positive minimum; otherwise the fields are the arguments. */
  function NewFund(id: int, name: string, minimumAmount: Money, category: FundCategory): (r: Result<Fund>)
    ensures r.Ok? <==> !IsBlank(name) && minimumAmount > 0
    ensures IsBlank(name) ==> r == Err(Domain(NameRequiredMessage))
    ensures !IsBlank(name) && minimumAmount <= 0 ==> r == Err(Domain(MinimumNotPositiveMessage))
    ensures r.Ok? ==> r.value == Fund(id, name, minimumAmount, category) && r.value.Valid()
  {
    if IsBlank(name) then Err(Domain(NameRequiredMessage))
    else if minimumAmount <= 0 then Err(Domain(MinimumNotPositiveMessage))
    else Ok(Fund(id, name, minimumAmount, category))
  }
}
