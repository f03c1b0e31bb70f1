/** The availability of a product at a bank branch: a pair of positive ids. */
module Availabilities {
  import opened Common

  const InvalidBranchMessage: string := "El identificador de la sucursal bancaria es inválido."
  const InvalidProductMessage: string := "El identificador del producto es inválido."

  /** The values an availability persists. */
  datatype AvailabilityState = AvailabilityState(id: int, bankBranchId: int, productId: int)
  {
    predicate Valid() { bankBranchId > 0 && productId > 0 }
  }

  /** The exception `Update` (and the constructor) throws, if any: the branch
      id is checked before the product id. */
  function UpdateError(bankBranchId: int, productId: int): (e: Option<Error>)
    ensures e.None? <==> bankBranchId > 0 && productId > 0
    ensures bankBranchId <= 0 ==> e == Some(Domain(InvalidBranchMessage))
    ensures bankBranchId > 0 && productId <= 0 ==> e == Some(Domain(InvalidProductMessage))
  {
    if bankBranchId <= 0 then Some(Domain(InvalidBranchMessage))
    else if productId <= 0 then Some(Domain(InvalidProductMessage))
    else None
  }

  class Availability {
    var id: int
    var bankBranchId: int
    var productId: int

    function State(): AvailabilityState
      reads this
    {
      AvailabilityState(id, bankBranchId, productId)
    }

    /** An availability read back from the store. */
    constructor FromState(s: AvailabilityState)
      ensures State() == s
    {
      id, bankBranchId, productId := s.id, s.bankBranchId, s.productId;
    }

    /** The public constructor: the two guards in order; the id stays 0 until
        the store assigns one. */
    static method New(bankBranchId: int, productId: int) returns (r: Result<Availability>)
      ensures r.Err? <==> UpdateError(bankBranchId, productId).Some?
      ensures r.Err? ==> r.error == UpdateError(bankBranchId, productId).value
      ensures r.Ok? ==> fresh(r.value) && r.value.State() == AvailabilityState(0, bankBranchId, productId)
    {
      var a := new Availability.FromState(AvailabilityState(0, 0, 0));
      var o := a.Update(bankBranchId, productId);
      if o.Fail? { return Err(o.error); }
      return Ok(a);
    }

    /** `Update`: checks and assigns the branch id, then checks and assigns
        the product id, so a bad product id throws after the branch id has
        changed; the id is never touched. */
    method Update(bankBranchId: int, productId: int) returns (o: Outcome)
      modifies this`bankBranchId, this`productId
      ensures o.Pass? <==> UpdateError(bankBranchId, productId).None?
      ensures o.Fail? ==> o.error == UpdateError(bankBranchId, productId).value
      ensures this.bankBranchId == if bankBranchId > 0 then bankBranchId else old(this.bankBranchId)
      ensures this.productId == if o.Pass? then productId else old(this.productId)
      ensures o.Pass? ==> State().Valid()
    {
      if bankBranchId <= 0 {
        return Fail(Domain(InvalidBranchMessage));
      }
      this.bankBranchId := bankBranchId;
      if productId <= 0 {
        return Fail(Domain(InvalidProductMessage));
      }
      this.productId := productId;
      o := Pass;
    }
  }
}
