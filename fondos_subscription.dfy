/** The subscription of a BTGPactual.Fondos client to a fund: the amount and
    the moment are fixed when it is made, and it can be cancelled once. */
module FondosSubscriptions {
  import opened Common

  const AmountNotPositiveMessage: string := "El monto de vinculación debe ser mayor a cero."
  const AlreadyCancelledMessage: string := "La suscripción ya fue cancelada."

  class Subscription {
    const id: Guid
    const fundId: int
    const amount: Money
    const subscribedAtUtc: DateTime
    var cancelledAtUtc: Option<DateTime>

    /** `IsActive`: not cancelled yet. */
    predicate IsActive()
      reads this
    {
      cancelledAtUtc.None?
    }

    constructor Init(id: Guid, fundId: int, amount: Money, subscribedAtUtc: DateTime)
      ensures this.id == id && this.fundId == fundId && this.amount == amount
      ensures this.subscribedAtUtc == subscribedAtUtc && IsActive()
    {
      this.id, this.fundId, this.amount, this.subscribedAtUtc := id, fundId, amount, subscribedAtUtc;
      cancelledAtUtc := None;
    }

    /** The public constructor: refuses a non-positive amount; a new
        subscription is active. */
    static method New(id: Guid, fundId: int, amount: Money, subscribedAtUtc: DateTime)
      returns (r: Result<Subscription>)
      ensures r.Ok? <==> amount > 0
      ensures r.Err? ==> r.error == Domain(AmountNotPositiveMessage)
      ensures r.Ok? ==> fresh(r.value) && r.value.IsActive()
      ensures r.Ok? ==> r.value.id == id && r.value.fundId == fundId && r.value.amount == amount
      ensures r.Ok? ==> r.value.subscribedAtUtc == subscribedAtUtc
    {
      if amount <= 0 {
        return Err(Domain(AmountNotPositiveMessage));
      }
      var s := new Subscription.Init(id, fundId, amount, subscribedAtUtc);
      return Ok(s);
    }

    /** `Cancel`: refuses a subscription already cancelled; otherwise records
        the cancellation time. Either way the subscription ends inactive. */
    method Cancel(cancelledAtUtc: DateTime) returns (o: Outcome)
      modifies this`cancelledAtUtc
      ensures o.Pass? <==> old(IsActive())
      ensures o.Fail? ==> o.error == Domain(AlreadyCancelledMessage)
      ensures this.cancelledAtUtc == if o.Pass? then Some(cancelledAtUtc) else old(this.cancelledAtUtc)
      ensures !IsActive()
    {
      if !IsActive() {
        return Fail(Domain(AlreadyCancelledMessage));
      }
      this.cancelledAtUtc := Some(cancelledAtUtc);
      o := Pass;
    }
  }
}
