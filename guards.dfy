/** The argument guards the entities share: an amount must be positive and a
    required text field must not be blank. */
module Guards {
  import opened Common
  import opened Text

  const AmountNotPositive: string := "El monto debe ser mayor a cero."

  /** `ValidateAmount`: throws unless the amount is positive. */
  function ValidateAmount(amount: Money): (o: Outcome)
    ensures o.Pass? <==> amount > 0
    ensures o.Fail? ==> o.error == Domain(AmountNotPositive)
  {
    if amount <= 0 then Fail(Domain(AmountNotPositive)) else Pass
  }

  function RequiredFieldMessage(fieldName: string): string {
    "El campo " + fieldName + " es requerido."
  }

  /** `NormalizeRequiredText`: a blank value is refused with a message naming
      the field; any other value is kept without its surrounding white space,
      and what is kept is never empty. */
  function NormalizeRequiredText(value: string, fieldName: string): (r: Result<string>)
    ensures r.Ok? <==> !IsBlank(value)
    ensures r.Ok? ==> r.value == Trim(value) && r.value != [] && IsTrimmed(r.value)
    ensures r.Err? ==> r.error == Domain(RequiredFieldMessage(fieldName))
  {
    TrimEmptyIffBlank(value);
    if IsBlank(value) then Err(Domain(RequiredFieldMessage(fieldName))) else Ok(Trim(value))
  }

  /** A normalised value passes the guard again unchanged. */
  lemma NormalizeRequiredTextIdempotent(value: string, fieldName: string, otherField: string)
    requires NormalizeRequiredText(value, fieldName).Ok?
    ensures NormalizeRequiredText(NormalizeRequiredText(value, fieldName).value, otherField)
         == NormalizeRequiredText(value, fieldName)
  {
    var t := Trim(value);
    TrimIdempotent(value);
    TrimEmptyIffBlank(t);
  }
}
