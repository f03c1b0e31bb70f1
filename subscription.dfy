/** The subscription of a TechnicalTest client to a product: the amount and
    the moment are fixed when it is made, and it can be cancelled once. */
module Subscriptions {
  import opened Common

  const AmountNotPositiveMessage: string := "El monto de vinculación debe ser mayor a cero."
  const AlreadyCancelledMessage: string := "La suscripción ya fue cancelada."

  /** The values a subscription persists. */
  datatype SubscriptionState = SubscriptionState(
    id: Guid,
    clientId: Guid,
    productId: int,
    amount: Money,
    subscribedAtUtc: DateTime,
    cancelledAtUtc: Option<DateTime>)
  {
    /** `IsActive`: not cancelled yet. */
    predicate IsActive() { cancelledAtUtc.None? }
  }

  class Subscription {
    const id: Guid
    const clientId: Guid
    const productId: int
    const amount: Money
    const subscribedAtUtc: DateTime
    var cancelledAtUtc: Option<DateTime>

    function State(): SubscriptionState
      reads this
    {
      SubscriptionState(id, clientId, productId, amount, subscribedAtUtc, cancelledAtUtc)
    }

    predicate IsActive()
      reads this
    {
      State().IsActive()
    }

    /** A subscription read back from the store with the values it was saved with. */
    constructor FromState(s: SubscriptionState)
      ensures State() == s
    {
      id, clientId, productId, amount, subscribedAtUtc := s.id, s.clientId, s.productId, s.amount, s.subscribedAtUtc;
      cancelledAtUtc := s.cancelledAtUtc;
    }

    /** The public constructor: refuses a non-positive amount; a new
        subscription is active. */
    static method New(id: Guid, clientId: Guid, productId: int, amount: Money, subscribedAtUtc: DateTime)
      returns (r: Result<Subscription>)
      ensures r.Ok? <==> amount > 0
      ensures r.Err? ==> r.error == Domain(AmountNotPositiveMessage)
      ensures r.Ok? ==> fresh(r.value) && r.value.IsActive()
      ensures r.Ok? ==> r.value.State() == SubscriptionState(id, clientId, productId, amount, subscribedAtUtc, None)
    {
      if amount <= 0 {
        return Err(Domain(AmountNotPositiveMessage));
      }
      var s := new Subscription.FromState(SubscriptionState(id, clientId, productId, amount, subscribedAtUtc, None));
      return Ok(s);
    }

    /** `Cancel`: refuses a subscription already cancelled; otherwise records
        the cancellation time. Either way the subscription ends inactive, and
        the first cancellation time is never overwritten. */
    method Cancel(cancelledAtUtc: DateTime) returns (o: Outcome)
      modifies this`cancelledAtUtc
      ensures o.Pass? <==> old(IsActive())
      ensures o.Fail? ==> o.error == Domain(AlreadyCancelledMessage)
      ensures this.cancelledAtUtc == if o.Pass? then Some(cancelledAtUtc) else old(this.cancelledAtUtc)
      ensures !IsActive()
    {
      if !IsActive() {
        return Fail(Domain(AlreadyCancelledMessage));
      }
      this.cancelledAtUtc := Some(cancelledAtUtc);
      o := Pass;
    }
  }
}
